/**
 * The server-side estimate endpoint (api/generate-estimate.ts). It runs in passes:
 *   1. ask the model for the project's critical materials and parse its answer best-effort;
 *   2. look up the first three materials' prices;
 *   3. render the caller's historical bids;
 *   4. ask the model for the estimate.
 * It answers with the model's JSON, its `groundingSources` replaced by the lookup sources. The
 * handler reassigns its context variables step by step; here it is the method `Handle`, proved equal
 * to the specification `Respond` built from the pure pass functions.
 */
module ServerEstimate {
  import opened Wrappers
  import opened Json
  import Text
  import Rag

  /** The two model calls: material identification, and synthesis with an optional image part. */
  datatype ModelCall = Identify(prompt: string) | Synthesize(prompt: string, image: Option<ImagePart>)
  datatype ModelAnswer = ModelThrew(message: string) | ModelText(text: string)

  /** An inline image part; the MIME type is passed on as the caller gave it. */
  datatype ImagePart = ImagePart(mimeType: Option<Json>, data: string)

  /** A price lookup: it threw (message None when it is a runtime error's text), or its parsed body. */
  datatype Lookup = LookupThrew(message: Option<string>) | LookupData(data: Json)

  /** A response body: a message (None when it is a runtime error's text), or the estimate JSON. */
  datatype Body = Message(text: Option<string>) | Estimate(json: Json)
  datatype Response = Response(status: int, body: Body)

  datatype Request = Request(httpMethod: string, body: Option<Json>)
  datatype Env = Env(geminiKey: Option<string>, serpKey: Option<string>)

  /** The validated project fields. */
  datatype Project = Project(scope: string, location: string, description: string)

  /** A best match mapped to the fields the prompt and the sources use. */
  datatype Priced = Priced(name: Option<Json>, price: Option<Json>, retailer: Option<Json>, link: Option<Json>)

  const LookupCap: nat := 3
  const KeyMissingMessage: string := "API Key missing"

  predicate Configured(s: Option<string>) { s.Some? && s.value != "" }

  /** `RequestSchema.parse({project})`: the project must be an object with string scope, location and
      description; other keys are dropped. */
  function ParseProject(project: Option<Json>): (r: Option<Project>)
    ensures r.Some? <==> (project.Some? && project.value.JObj?
      && "scope" in project.value.fields && project.value.fields["scope"].JStr?
      && "location" in project.value.fields && project.value.fields["location"].JStr?
      && "description" in project.value.fields && project.value.fields["description"].JStr?)
  {
    if project.Some? && project.value.JObj? then
      var f := project.value.fields;
      if "scope" in f && f["scope"].JStr? && "location" in f && f["location"].JStr?
        && "description" in f && f["description"].JStr?
      then Some(Project(f["scope"].s, f["location"].s, f["description"].s))
      else None
    else None
  }

  function IdentificationPrompt(p: Project): string {
    "List the 5 most critical construction materials for this specific project: " + p.scope + " in "
      + p.location + ". Output JSON array of strings only."
  }

  // ---------------------------------------------------------------------------------------------
  // Pass 1: fence stripping

  const Fence: string := "```"
  const JsonFence: string := "```json"

  /** `s.replace(/```json|```/g, "")`: scanning left to right, each "```json" or else "```" is removed. */
  function StripFences(s: string): (r: string)
    ensures |r| <= |s|
    ensures forall c :: c in r ==> c in s
    decreases |s|
  {
    if Text.StartsWith(s, JsonFence) then StripFences(s[|JsonFence|..])
    else if Text.StartsWith(s, Fence) then StripFences(s[|Fence|..])
    else if s == [] then []
    else [s[0]] + StripFences(s[1..])
  }

  /** Text that does not start with a backtick keeps its first character. */
  lemma StripKeepsFirst(u: string)
    requires u != [] && u[0] != '`'
    ensures StripFences(u) != [] && StripFences(u)[0] == u[0]
  {
  }

  /** Text that does not start with two backticks does not, once stripped, either. */
  lemma StripNoDoubleStart(t: string)
    requires !Text.StartsWith(t, "``")
    ensures !Text.StartsWith(StripFences(t), "``")
  {
    if t != [] {
      if t[0] != '`' {
        StripKeepsFirst(t);
      } else {
        assert !Text.StartsWith(t, Fence) && !Text.StartsWith(t, JsonFence);
        if |t| > 1 {
          StripKeepsFirst(t[1..]);
        }
      }
    }
  }

  /** No fence survives: the stripped text never contains "```". */
  lemma {:induction false} StripLeavesNoFence(s: string)
    ensures !Text.Contains(StripFences(s), Fence)
    decreases |s|
  {
    if Text.StartsWith(s, JsonFence) {
      StripLeavesNoFence(s[|JsonFence|..]);
    } else if Text.StartsWith(s, Fence) {
      StripLeavesNoFence(s[|Fence|..]);
    } else if s != [] {
      var rest := StripFences(s[1..]);
      StripLeavesNoFence(s[1..]);
      var out := [s[0]] + rest;
      assert out[1..] == rest;
      if s[0] == '`' {
        StripNoDoubleStart(s[1..]);
      }
    }
  }

  /** Text without a backtick is left as it is. */
  lemma {:induction false} StripWithoutBackticks(s: string)
    requires '`' !in s
    ensures StripFences(s) == s
    decreases |s|
  {
    if s != [] {
      assert s[0] != '`';
      StripWithoutBackticks(s[1..]);
    }
  }

  // ---------------------------------------------------------------------------------------------
  // Pass 2: lookups

  /** What the handler does with the identification result. */
  datatype Grounding = NoLookups | LookUp(materials: seq<Json>) | GroundingCrash

  /** `x > 0` for the `length` member of a parsed object (only numbers, booleans and null are
      compared exactly; any other value is taken as not positive). */
  predicate PositiveLength(v: Json) {
    match v
    case JNum(n) => n > 0.0
    case JBool(b) => b
    case _ => false
  }

  /** `materialsToGround.length > 0 && serpApiKey`, then `.slice(0, 3).map(...)`: a parse failure leaves
      the empty list; `null` throws on `.length`; a string or object with a positive length throws on
      `.map` (when the key is set); an array is cut to its first three elements. */
  function GroundingStep(parsed: Option<Json>, serpKey: Option<string>): (g: Grounding)
    ensures g.LookUp? ==> 0 < |g.materials| <= LookupCap && Configured(serpKey)
    ensures parsed.None? ==> g == NoLookups
    ensures parsed.Some? && parsed.value.JArr? ==>
      g == if parsed.value.elems != [] && Configured(serpKey)
           then LookUp(parsed.value.elems[..if |parsed.value.elems| < LookupCap then |parsed.value.elems| else LookupCap])
           else NoLookups
  {
    match parsed
    case None => NoLookups
    case Some(JNull) => GroundingCrash
    case Some(JArr(es)) =>
      if es != [] && Configured(serpKey) then LookUp(es[..if |es| < LookupCap then |es| else LookupCap]) else NoLookups
    case Some(JStr(s)) => if s != "" && Configured(serpKey) then GroundingCrash else NoLookups
    case Some(JObj(f)) =>
      if "length" in f && PositiveLength(f["length"]) && Configured(serpKey) then GroundingCrash else NoLookups
    case Some(_) => NoLookups
  }

  /** `data.shopping_results?.[0]`, then the mapping of a truthy match; Throws when `data` is `null`. */
  function BestMatch(data: Json): (a: Access)
    ensures a.Throws? <==> data == JNull
    ensures a.Present? <==> (data.JObj? && "shopping_results" in data.fields && data.fields["shopping_results"] != JNull
      && First(data.fields["shopping_results"]).Some?)
    ensures a.Present? ==> Some(a.value) == First(data.fields["shopping_results"])
  {
    if data == JNull then Throws
    else match Member(Some(data), "shopping_results")
      case Present(results) =>
        if results == JNull then Undefined
        else (match First(results)
          case None => Undefined
          case Some(m) => Present(m))
      case Undefined => Undefined
      case Throws => Throws
  }

  function ToPriced(m: Json): Priced
    requires m != JNull
  {
    Priced(Member(Some(m), "title").Value(), Member(Some(m), "extracted_price").Value(),
      Member(Some(m), "source").Value(), Member(Some(m), "link").Value())
  }

  /** The outcome of one lookup: abort, or a priced match, or `null` (None). */
  datatype LookupResult = Aborted(message: Option<string>) | Done(match_: Option<Priced>)

  /** One lookup: a throwing search, or a `null` body, aborts; a truthy best match is priced; anything
      else is `null`. */
  function LookupOne(answer: Lookup): (r: LookupResult)
    ensures r.Aborted? <==> answer.LookupThrew? || answer.data == JNull
    ensures answer.LookupThrew? ==> r == Aborted(answer.message)
    ensures r.Done? && r.match_.Some? <==> (answer.LookupData? && BestMatch(answer.data).Present?
      && Truthy(Some(BestMatch(answer.data).value)))
    ensures r.Done? && r.match_.Some? ==> r.match_.value == ToPriced(BestMatch(answer.data).value)
  {
    match answer
    case LookupThrew(msg) => Aborted(msg)
    case LookupData(data) =>
      match BestMatch(data)
      case Throws => Aborted(None)
      case Undefined => Done(None)
      case Present(m) => if Truthy(Some(m)) then Done(Some(ToPriced(m))) else Done(None)
  }

  /** The lookups of `ms`, in order (`Promise.all`): the first to throw aborts all of them. */
  datatype Fanout = FanoutAborted(message: Option<string>) | FanoutDone(results: seq<Option<Priced>>)

  function LookupAll(ms: seq<Json>, location: string, lookup: (string, string) -> Lookup, numText: real -> string): (r: Fanout)
    ensures r.FanoutDone? ==> |r.results| == |ms|
    decreases |ms|
  {
    if ms == [] then FanoutDone([])
    else
      match LookupAll(ms[..|ms| - 1], location, lookup, numText)
      case FanoutAborted(msg) => FanoutAborted(msg)
      case FanoutDone(rs) =>
        match LookupOne(lookup(TemplateText(Some(ms[|ms| - 1]), numText), location))
        case Aborted(msg) => FanoutAborted(msg)
        case Done(r) => FanoutDone(rs + [r])
  }

  /** The non-null results, in order. */
  function Valid(rs: seq<Option<Priced>>): (r: seq<Priced>)
    ensures |r| <= |rs|
    ensures forall d :: d in r <==> Some(d) in rs
  {
    if rs == [] then [] else
    var init := Valid(rs[..|rs| - 1]);
    assert rs == rs[..|rs| - 1] + [rs[|rs| - 1]];
    if rs[|rs| - 1].Some? then init + [rs[|rs| - 1].value] else init
  }

  /** The filter keeps lookup order: the matches of a concatenation are those of each part. */
  lemma {:induction false} ValidAppend(a: seq<Option<Priced>>, b: seq<Option<Priced>>)
    ensures Valid(a + b) == Valid(a) + Valid(b)
    decreases |b|
  {
    if b == [] {
      assert a + b == a;
    } else {
      var init := b[..|b| - 1];
      assert (a + b)[..|a + b| - 1] == a + init;
      ValidAppend(a, init);
    }
  }

  /** One grounding line: `- name: $price at retailer (link)`. */
  function GroundingLine(d: Priced, numText: real -> string): string {
    "- " + TemplateText(d.name, numText) + ": $" + TemplateText(d.price, numText) + " at "
      + TemplateText(d.retailer, numText) + " (" + TemplateText(d.link, numText) + ")"
  }

  /** One source: titled `retailer: name`, with the link as its uri (left out when undefined). */
  function SourceJson(d: Priced, numText: real -> string): Json {
    ObjectOf([("title", Some(JStr(TemplateText(d.retailer, numText) + ": " + TemplateText(d.name, numText)))), ("uri", d.link)])
  }

  function GroundingLines(ds: seq<Priced>, numText: real -> string): (r: seq<string>)
    ensures |r| == |ds| && forall k :: 0 <= k < |ds| ==> r[k] == GroundingLine(ds[k], numText)
  {
    seq(|ds|, k requires 0 <= k < |ds| => GroundingLine(ds[k], numText))
  }

  function SourcesJson(ds: seq<Priced>, numText: real -> string): (r: seq<Json>)
    ensures |r| == |ds| && forall k :: 0 <= k < |ds| ==> r[k] == SourceJson(ds[k], numText)
  {
    seq(|ds|, k requires 0 <= k < |ds| => SourceJson(ds[k], numText))
  }

  const GroundingHeader: string := "\nLIVE_MARKET_GROUNDING_DATA:\n"

  /** The grounding block: empty when nothing was found, otherwise the header and one line per match. */
  function GroundingContext(ds: seq<Priced>, numText: real -> string): (r: string)
    ensures r == "" <==> ds == []
    ensures ds != [] ==> Text.StartsWith(r, GroundingHeader)
    ensures |ds| == 1 ==> r == GroundingHeader + GroundingLine(ds[0], numText)
  {
    if ds == [] then "" else GroundingHeader + Text.Join(GroundingLines(ds, numText), "\n")
  }

  // ---------------------------------------------------------------------------------------------
  // Pass 3: historical bids

  const BidsHeader: string := "\nPROVIDED_HISTORICAL_BIDS (FOR WEIGHTING):\n"

  /** One bid line; None when the bid is `null` (reading its name throws). */
  function BidLine(b: Json, numText: real -> string): Option<string> {
    if b == JNull then None
    else Some("- Project: " + TemplateText(Member(Some(b), "name").Value(), numText)
      + ", Outcome: " + TemplateText(Member(Some(b), "status").Value(), numText)
      + ", Margins: " + TemplateText(Member(Some(b), "margins").Value(), numText) + "%")
  }

  function BidLines(bs: seq<Json>, numText: real -> string): (r: Option<seq<string>>)
    ensures r.Some? ==> |r.value| == |bs| && forall k :: 0 <= k < |bs| ==> Some(r.value[k]) == BidLine(bs[k], numText)
    ensures r.None? <==> exists k :: 0 <= k < |bs| && bs[k] == JNull
  {
    if forall k :: 0 <= k < |bs| ==> bs[k] != JNull then
      Some(seq(|bs|, k requires 0 <= k < |bs| => BidLine(bs[k], numText).value))
    else None
  }

  /** The history block: present only for an array, one line per bid in order, with no filter and no
      cap; None when a bid is `null`. */
  function RagContext(historicalBids: Option<Json>, numText: real -> string): (r: Option<string>)
    ensures historicalBids.None? || !historicalBids.value.JArr? ==> r == Some("")
  {
    if historicalBids.Some? && historicalBids.value.JArr? then
      match BidLines(historicalBids.value.elems, numText)
      case None => None
      case Some(lines) => Some(BidsHeader + Text.Join(lines, "\n"))
    else Some("")
  }

  // ---------------------------------------------------------------------------------------------
  // Final pass

  /** The project's lines, with which the final prompt opens. */
  function ProjectLines(p: Project): string {
    "PROJECT_DATA:\nScope: " + p.scope + "\nLocale: " + p.location + "\nDetails: " + p.description + "\n"
  }

  const ActionLine: string := "\n\nACTION: Perform spatial takeoff and synthesize proposal matching schema."

  /** The final prompt: the project's lines, then the grounding block and the history block on lines
      of their own, then the instruction. */
  function FinalPrompt(p: Project, grounding: string, rag: string): (r: string)
    ensures |r| == |ProjectLines(p)| + |grounding| + 1 + |rag| + |ActionLine|
    ensures Text.StartsWith(r, ProjectLines(p))
    ensures r[|ProjectLines(p)|..|ProjectLines(p)| + |grounding|] == grounding
    ensures r[|ProjectLines(p)| + |grounding|] == '\n'
    ensures r[|ProjectLines(p)| + |grounding| + 1..|r| - |ActionLine|] == rag
    ensures |r| >= |ActionLine| && r[|r| - |ActionLine|..] == ActionLine
  {
    var r := ProjectLines(p) + grounding + "\n" + rag + ActionLine;
    assert r[..|ProjectLines(p)|] == ProjectLines(p);
    r
  }

  /** The attachment: none when falsy; its data after the first comma (or whole) and its MIME type
      when its data is a string; a crash otherwise. */
  datatype Attach = NoImage | Image(part: ImagePart) | AttachCrash

  function AttachmentStep(att: Option<Json>): (r: Attach)
    ensures r == NoImage <==> !Truthy(att)
    ensures r == AttachCrash <==> Truthy(att) && !(Member(att, "data").Present? && Member(att, "data").value.JStr?)
    ensures r.Image? ==> r.part.mimeType == Member(att, "mimeType").Value()
    ensures r.Image? && ',' !in Member(att, "data").value.s ==> r.part.data == Member(att, "data").value.s
  {
    if !Truthy(att) then NoImage
    else match Member(att, "data")
      case Present(JStr(d)) =>
        var after := Text.SecondField(d, ',');
        Image(ImagePart(Member(att, "mimeType").Value(), if after.Some? && after.value != "" then after.value else d))
      case _ => AttachCrash
  }

  /** An attachment whose data is a data URL `header,payload`, with a comma-free header and a non-empty
      comma-free payload, sends exactly the payload under its own MIME type. */
  lemma AttachmentSendsPayload(att: Option<Json>, header: string, payload: string)
    requires Truthy(att) && Member(att, "data") == Present(JStr(header + "," + payload))
    requires ',' !in header && ',' !in payload && payload != ""
    ensures AttachmentStep(att) == Image(ImagePart(Member(att, "mimeType").Value(), payload))
  {
    Text.SecondFieldOfPair(header, payload, ',');
  }

  /** `{...output, groundingSources: sources}`. */
  function MergeSources(output: Json, sources: seq<Json>): (r: Json)
    ensures r.JObj? && "groundingSources" in r.fields && r.fields["groundingSources"] == JArr(sources)
    ensures forall k :: k in SpreadFields(output) && k != "groundingSources" ==> k in r.fields && r.fields[k] == SpreadFields(output)[k]
  {
    JObj(SpreadFields(output)["groundingSources" := JArr(sources)])
  }

  const Runtime500: Response := Response(500, Message(None))

  /** `output` is what `JSON.parse` makes of the text the model answered to a synthesis call. */
  ghost predicate SynthesisAnswered(output: Json, model: ModelCall -> ModelAnswer, parse: string -> Option<Json>) {
    exists prompt, image :: model(Synthesize(prompt, image)).ModelText? && parse(model(Synthesize(prompt, image)).text) == Some(output)
  }

  // ---------------------------------------------------------------------------------------------
  // The handler, as a specification

  /** Pass 2 as a whole: the priced matches, or the error response that ends the request. */
  function Ground(p: Project, parsed: Option<Json>, serpKey: Option<string>, lookup: (string, string) -> Lookup,
                  numText: real -> string): (r: Result<seq<Priced>, Response>)
    ensures r.Ok? && GroundingStep(parsed, serpKey).LookUp? ==> |r.value| <= |GroundingStep(parsed, serpKey).materials|
    ensures r.Ok? && !GroundingStep(parsed, serpKey).LookUp? ==> r.value == []
    ensures r.Err? ==> r.error.status == 500
  {
    match GroundingStep(parsed, serpKey)
    case GroundingCrash => Err(Runtime500)
    case NoLookups => Ok([])
    case LookUp(ms) =>
      match LookupAll(ms, p.location, lookup, numText)
      case FanoutAborted(msg) => Err(Response(500, Message(msg)))
      case FanoutDone(rs) => Ok(Valid(rs))
  }

  /** The synthesis call and the parse of its answer. */
  function Synthesis(p: Project, found: seq<Priced>, rag: string, image: Option<ImagePart>, model: ModelCall -> ModelAnswer,
                     parse: string -> Option<Json>, numText: real -> string): (r: Response)
    ensures r.status == 200 || r.status == 500
    ensures var answer := model(Synthesize(FinalPrompt(p, GroundingContext(found, numText), rag), image));
      r.status == 200 <==> answer.ModelText? && parse(answer.text).Some?
    ensures var answer := model(Synthesize(FinalPrompt(p, GroundingContext(found, numText), rag), image));
      answer.ModelThrew? ==> r == Response(500, Message(Some(answer.message)))
    ensures var answer := model(Synthesize(FinalPrompt(p, GroundingContext(found, numText), rag), image));
      r.status == 200 ==> (answer.ModelText? && parse(answer.text).Some?
        && r.body == Estimate(MergeSources(parse(answer.text).value, SourcesJson(found, numText))))
  {
    match model(Synthesize(FinalPrompt(p, GroundingContext(found, numText), rag), image))
    case ModelThrew(msg) => Response(500, Message(Some(msg)))
    case ModelText(outText) =>
      match parse(outText)
      case None => Runtime500
      case Some(output) => Response(200, Estimate(MergeSources(output, SourcesJson(found, numText))))
  }

  /** Pass 3 and the final pass, given the priced matches: 200 with the model's JSON and the matches'
      sources, or 500. */
  function Finish(p: Project, body: Option<Json>, found: seq<Priced>, model: ModelCall -> ModelAnswer,
                  parse: string -> Option<Json>, numText: real -> string): (r: Response)
    ensures r.status == 200 || r.status == 500
    ensures r.status == 200 ==>
      exists output :: SynthesisAnswered(output, model, parse) && r.body == Estimate(MergeSources(output, SourcesJson(found, numText)))
  {
    match RagContext(Member(body, "historicalBids").Value(), numText)
    case None => Runtime500
    case Some(rag) =>
      match AttachmentStep(Member(body, "attachment").Value())
      case AttachCrash => Runtime500
      case NoImage =>
        SynthesisIsAnswer(p, found, rag, None, model, parse, numText); Synthesis(p, found, rag, None, model, parse, numText)
      case Image(part) =>
        SynthesisIsAnswer(p, found, rag, Some(part), model, parse, numText); Synthesis(p, found, rag, Some(part), model, parse, numText)
  }

  /** A 200 from the synthesis step is the merge of a parsed synthesis answer. */
  lemma SynthesisIsAnswer(p: Project, found: seq<Priced>, rag: string, image: Option<ImagePart>, model: ModelCall -> ModelAnswer,
                          parse: string -> Option<Json>, numText: real -> string)
    ensures var r := Synthesis(p, found, rag, image, model, parse, numText);
      r.status == 200 ==>
      exists output :: SynthesisAnswered(output, model, parse) && r.body == Estimate(MergeSources(output, SourcesJson(found, numText)))
  {
    var prompt := FinalPrompt(p, GroundingContext(found, numText), rag);
    var answer := model(Synthesize(prompt, image));
    if Synthesis(p, found, rag, image, model, parse, numText).status == 200 {
      var output := parse(answer.text).value;
      assert SynthesisAnswered(output, model, parse) by {
        assert model(Synthesize(prompt, image)).ModelText? && parse(model(Synthesize(prompt, image)).text) == Some(output);
      }
    }
  }

  /** The handler's response. `model` answers the two calls, `parse` is `JSON.parse`, `lookup` the
      price search (given the query text and location), `numText` number-to-text. */
  function Respond(req: Request, env: Env, model: ModelCall -> ModelAnswer, parse: string -> Option<Json>,
                   lookup: (string, string) -> Lookup, numText: real -> string): (r: Response)
    ensures r.status == 405 <==> req.httpMethod != "POST"
    ensures r.status == 200 || r.status == 405 || r.status == 500
    ensures r.status == 200 ==>
      exists output, sources :: SynthesisAnswered(output, model, parse) && r.body == Estimate(MergeSources(output, sources))
  {
    if req.httpMethod != "POST" then Response(405, Message(Some("Method not allowed")))
    else if req.body.None? || req.body.value == JNull then Runtime500
    else match ParseProject(Member(req.body, "project").Value())
      case None => Runtime500
      case Some(p) =>
        if !Configured(env.geminiKey) then Response(500, Message(Some(KeyMissingMessage)))
        else match model(Identify(IdentificationPrompt(p)))
          case ModelThrew(msg) => Response(500, Message(Some(msg)))
          case ModelText(idText) =>
            match Ground(p, parse(Text.Trim(StripFences(idText))), env.serpKey, lookup, numText)
            case Err(failure) => failure
            case Ok(found) => Finish(p, req.body, found, model, parse, numText)
  }

  // ---------------------------------------------------------------------------------------------
  // Properties of the specification

  /** An abort in a prefix of the lookups is the abort of all of them. */
  lemma {:induction false} AbortPropagates(ms: seq<Json>, j: nat, location: string, lookup: (string, string) -> Lookup, numText: real -> string)
    requires j <= |ms|
    requires LookupAll(ms[..j], location, lookup, numText).FanoutAborted?
    ensures LookupAll(ms, location, lookup, numText) == LookupAll(ms[..j], location, lookup, numText)
    decreases |ms| - j
  {
    if j < |ms| {
      assert ms[..j + 1][..j] == ms[..j];
      AbortPropagates(ms, j + 1, location, lookup, numText);
    } else {
      assert ms[..j] == ms;
    }
  }

  /** The query text sent for each material. */
  function QueryTexts(ms: seq<Json>, numText: real -> string): (r: seq<string>)
    ensures |r| == |ms| && forall k :: 0 <= k < |ms| ==> r[k] == TemplateText(Some(ms[k]), numText)
  {
    seq(|ms|, k requires 0 <= k < |ms| => TemplateText(Some(ms[k]), numText))
  }

  /** Two lookup services that answer the same for the given queries at the given location. */
  predicate AgreeOn(l1: (string, string) -> Lookup, l2: (string, string) -> Lookup, qs: seq<string>, location: string) {
    forall k :: 0 <= k < |qs| ==> l1(qs[k], location) == l2(qs[k], location)
  }

  /** The fan-out only depends on the answers to its own queries. */
  lemma {:induction false} LookupAllAgree(ms: seq<Json>, location: string, l1: (string, string) -> Lookup, l2: (string, string) -> Lookup, numText: real -> string)
    requires AgreeOn(l1, l2, QueryTexts(ms, numText), location)
    ensures LookupAll(ms, location, l1, numText) == LookupAll(ms, location, l2, numText)
    decreases |ms|
  {
    if ms != [] {
      var init := ms[..|ms| - 1];
      assert AgreeOn(l1, l2, QueryTexts(init, numText), location) by {
        forall k | 0 <= k < |init| ensures l1(QueryTexts(init, numText)[k], location) == l2(QueryTexts(init, numText)[k], location) {
          assert QueryTexts(init, numText)[k] == QueryTexts(ms, numText)[k];
        }
      }
      LookupAllAgree(init, location, l1, l2, numText);
      assert QueryTexts(ms, numText)[|ms| - 1] == TemplateText(Some(ms[|ms| - 1]), numText);
    }
  }

  /** The price queries the handler sends: the text of each of the first three identified materials,
      and only when the search key is configured. */
  function Queries(req: Request, env: Env, model: ModelCall -> ModelAnswer, parse: string -> Option<Json>, numText: real -> string): (qs: seq<string>)
    ensures |qs| <= LookupCap
    ensures qs != [] ==> Configured(env.serpKey) && Configured(env.geminiKey) && req.httpMethod == "POST"
  {
    if req.httpMethod != "POST" || req.body.None? || req.body.value == JNull then []
    else match ParseProject(Member(req.body, "project").Value())
      case None => []
      case Some(p) =>
        if !Configured(env.geminiKey) then []
        else match model(Identify(IdentificationPrompt(p)))
          case ModelThrew(_) => []
          case ModelText(idText) =>
            match GroundingStep(parse(Text.Trim(StripFences(idText))), env.serpKey)
            case LookUp(ms) => QueryTexts(ms, numText)
            case _ => []
  }

  /** Beyond the queries it sends, the price service has no influence on the response: two services
      that agree on those queries give the same response. */
  lemma LookupsBeyondQueriesIgnored(req: Request, env: Env, model: ModelCall -> ModelAnswer, parse: string -> Option<Json>,
                                    l1: (string, string) -> Lookup, l2: (string, string) -> Lookup, numText: real -> string)
    requires req.body.Some? && ParseProject(Member(req.body, "project").Value()).Some?
    requires AgreeOn(l1, l2, Queries(req, env, model, parse, numText), ParseProject(Member(req.body, "project").Value()).value.location)
    ensures Respond(req, env, model, parse, l1, numText) == Respond(req, env, model, parse, l2, numText)
  {
    if req.httpMethod == "POST" && req.body.value != JNull && Configured(env.geminiKey) {
      var p := ParseProject(Member(req.body, "project").Value()).value;
      match model(Identify(IdentificationPrompt(p)))
      case ModelThrew(_) =>
      case ModelText(idText) =>
        match GroundingStep(parse(Text.Trim(StripFences(idText))), env.serpKey)
        case LookUp(ms) => LookupAllAgree(ms, p.location, l1, l2, numText);
        case _ =>
    }
  }

  /** A method other than POST is refused with 405 whatever the services would answer. */
  lemma NonPostRefused(req: Request, env: Env, model: ModelCall -> ModelAnswer, parse: string -> Option<Json>,
                       lookup: (string, string) -> Lookup, numText: real -> string)
    requires req.httpMethod != "POST"
    ensures Respond(req, env, model, parse, lookup, numText) == Response(405, Message(Some("Method not allowed")))
    ensures Queries(req, env, model, parse, numText) == []
  {
  }

  /** A valid request without the model key is answered 500 "API Key missing", before any call. */
  lemma MissingKeyRefused(req: Request, env: Env, m1: ModelCall -> ModelAnswer, m2: ModelCall -> ModelAnswer,
                          parse: string -> Option<Json>, lookup: (string, string) -> Lookup, numText: real -> string)
    requires req.httpMethod == "POST" && req.body.Some? && req.body.value != JNull
    requires ParseProject(Member(req.body, "project").Value()).Some?
    requires !Configured(env.geminiKey)
    ensures Respond(req, env, m1, parse, lookup, numText) == Response(500, Message(Some(KeyMissingMessage)))
    ensures Respond(req, env, m1, parse, lookup, numText) == Respond(req, env, m2, parse, lookup, numText)
  {
  }

  /** A successful response is the model's parsed synthesis answer with `groundingSources` set to the
      sources of the priced matches, which are no more than the queries sent to the price service. */
  lemma SuccessCarriesLookupSources(req: Request, env: Env, model: ModelCall -> ModelAnswer, parse: string -> Option<Json>,
                                    lookup: (string, string) -> Lookup, numText: real -> string)
    requires Respond(req, env, model, parse, lookup, numText).status == 200
    ensures exists output, found: seq<Priced> ::
      && SynthesisAnswered(output, model, parse)
      && Respond(req, env, model, parse, lookup, numText).body == Estimate(MergeSources(output, SourcesJson(found, numText)))
      && |found| <= |Queries(req, env, model, parse, numText)|
  {
    var p := ParseProject(Member(req.body, "project").Value()).value;
    var idText := model(Identify(IdentificationPrompt(p))).text;
    var parsed := parse(Text.Trim(StripFences(idText)));
    var found := Ground(p, parsed, env.serpKey, lookup, numText).value;
    assert Respond(req, env, model, parse, lookup, numText) == Finish(p, req.body, found, model, parse, numText);
  }

  /** A body that is not JSON or is `null`, or a project that does not validate, is a 500 before any
      call to the model or the price service. */
  lemma InvalidProjectRefused(req: Request, env: Env, model: ModelCall -> ModelAnswer, parse: string -> Option<Json>,
                              lookup: (string, string) -> Lookup, numText: real -> string)
    requires req.httpMethod == "POST"
    requires req.body.None? || req.body.value == JNull || ParseProject(Member(req.body, "project").Value()).None?
    ensures Respond(req, env, model, parse, lookup, numText) == Runtime500
    ensures Queries(req, env, model, parse, numText) == []
  {
  }

  /** When the synthesis answer never parses as JSON, no request succeeds: every POST is a 500. */
  lemma UnparseableAnswerFails(req: Request, env: Env, model: ModelCall -> ModelAnswer, parse: string -> Option<Json>,
                               lookup: (string, string) -> Lookup, numText: real -> string)
    requires forall prompt, image :: model(Synthesize(prompt, image)).ModelText? && parse(model(Synthesize(prompt, image)).text).None?
    ensures Respond(req, env, model, parse, lookup, numText).status == if req.httpMethod == "POST" then 500 else 405
  {
    if req.httpMethod == "POST" && req.body.Some? && req.body.value != JNull && Configured(env.geminiKey) {
      var project := ParseProject(Member(req.body, "project").Value());
      if project.Some? && model(Identify(IdentificationPrompt(project.value))).ModelText? {
        var p := project.value;
        var idText := model(Identify(IdentificationPrompt(p))).text;
        var g := Ground(p, parse(Text.Trim(StripFences(idText))), env.serpKey, lookup, numText);
        if g.Ok? {
          FinishFails(p, req.body, g.value, model, parse, numText);
        }
      }
    }
  }

  lemma FinishFails(p: Project, body: Option<Json>, found: seq<Priced>, model: ModelCall -> ModelAnswer,
                    parse: string -> Option<Json>, numText: real -> string)
    requires forall prompt, image :: model(Synthesize(prompt, image)).ModelText? && parse(model(Synthesize(prompt, image)).text).None?
    ensures Finish(p, body, found, model, parse, numText).status == 500
  {
    var rag := RagContext(Member(body, "historicalBids").Value(), numText);
    var att := AttachmentStep(Member(body, "attachment").Value());
    if rag.Some? && !att.AttachCrash? {
      var image := if att.Image? then Some(att.part) else None;
      var answer := model(Synthesize(FinalPrompt(p, GroundingContext(found, numText), rag.value), image));
      assert parse(answer.text).None?;
      assert Finish(p, body, found, model, parse, numText) == Synthesis(p, found, rag.value, image, model, parse, numText);
    }
  }

  /** A lookup that throws fails the whole request with 500 and its message. */
  lemma ThrowingLookupFails(req: Request, env: Env, model: ModelCall -> ModelAnswer, parse: string -> Option<Json>,
                            lookup: (string, string) -> Lookup, numText: real -> string, k: nat)
    requires req.httpMethod == "POST" && req.body.Some? && req.body.value != JNull
    requires ParseProject(Member(req.body, "project").Value()).Some?
    requires Configured(env.geminiKey)
    requires model(Identify(IdentificationPrompt(ParseProject(Member(req.body, "project").Value()).value))).ModelText?
    requires var qs := Queries(req, env, model, parse, numText);
      k < |qs| && lookup(qs[k], ParseProject(Member(req.body, "project").Value()).value.location).LookupThrew?
    ensures Respond(req, env, model, parse, lookup, numText).status == 500
  {
    var p := ParseProject(Member(req.body, "project").Value()).value;
    var idText := model(Identify(IdentificationPrompt(p))).text;
    var ms := GroundingStep(parse(Text.Trim(StripFences(idText))), env.serpKey).materials;
    if LookupAll(ms[..k], p.location, lookup, numText).FanoutAborted? {
      AbortPropagates(ms, k, p.location, lookup, numText);
    } else {
      assert ms[..k + 1][..k] == ms[..k];
      assert ms[..k + 1][k] == ms[k];
      assert LookupAll(ms[..k + 1], p.location, lookup, numText).FanoutAborted?;
      AbortPropagates(ms, k + 1, p.location, lookup, numText);
    }
  }

  /** A past bid from the won-bid query renders with the outcome "won" and its own name and margins. */
  lemma {:induction false} WonBidLine(bids: seq<Rag.Bid>, k: nat, numText: real -> string)
    requires k < |bids| && bids[k].status == Some(JStr("won"))
    ensures BidLine(Rag.BidsJson(bids).elems[k], numText) == Some("- Project: " + TemplateText(bids[k].name, numText)
      + ", Outcome: " + "won" + ", Margins: " + ValueText(bids[k].margins, numText) + "%")
  {
    var b := bids[k];
    var members := [("name", b.name), ("status", b.status), ("margins", Some(b.margins)), ("total", b.total)];
    assert Rag.BidsJson(bids).elems[k] == ObjectOf(members);
    ObjectOfMember(members, 1);
    ObjectOfMember(members, 2);
    ObjectOfMember(members, 0);
    var o := ObjectOf(members);
    assert Member(Some(o), "status").Value() == Some(JStr("won"));
    assert Member(Some(o), "margins").Value() == Some(b.margins);
    assert Member(Some(o), "name").Value() == b.name;
  }

  /** Every bid the won-bid query yields renders as a won bid. */
  lemma HistoryRendersWon(records: Option<seq<Rag.Record>>, userId: string, k: nat, numText: real -> string)
    requires k < |Rag.HistoricalContext(records, userId)|
    ensures var bids := Rag.HistoricalContext(records, userId);
      BidLine(Rag.BidsJson(bids).elems[k], numText) == Some("- Project: " + TemplateText(bids[k].name, numText)
        + ", Outcome: " + "won" + ", Margins: " + ValueText(bids[k].margins, numText) + "%")
  {
    WonBidLine(Rag.HistoricalContext(records, userId), k, numText);
  }

  // ---------------------------------------------------------------------------------------------
  // The handler

  /** Pass 2 as the handler runs it: the lookups of the first materials, one after the other in index
      order, then the non-null matches. */
  method GroundMaterials(p: Project, parsed: Option<Json>, serpKey: Option<string>, lookup: (string, string) -> Lookup,
                         numText: real -> string) returns (r: Result<seq<Priced>, Response>)
    ensures r == Ground(p, parsed, serpKey, lookup, numText)
  {
    var step := GroundingStep(parsed, serpKey);
    if step.GroundingCrash? {
      return Err(Runtime500);
    }
    if step.NoLookups? {
      return Ok([]);
    }
    var ms := step.materials;
    var results: seq<Option<Priced>> := [];
    var i := 0;
    while i < |ms|
      invariant 0 <= i <= |ms|
      invariant LookupAll(ms[..i], p.location, lookup, numText) == FanoutDone(results)
    {
      var one := LookupOne(lookup(TemplateText(Some(ms[i]), numText), p.location));
      assert ms[..i + 1][..i] == ms[..i];
      if one.Aborted? {
        AbortPropagates(ms, i + 1, p.location, lookup, numText);
        return Err(Response(500, Message(one.message)));
      }
      results := results + [one.match_];
      i := i + 1;
    }
    assert ms[..i] == ms;
    return Ok(Valid(results));
  }

  /** The handler. It builds the grounding context, the sources, the history context and the
      prompt parts as it goes, and answers exactly as `Respond`. */
  method Handle(req: Request, env: Env, model: ModelCall -> ModelAnswer, parse: string -> Option<Json>,
                lookup: (string, string) -> Lookup, numText: real -> string) returns (resp: Response)
    ensures resp == Respond(req, env, model, parse, lookup, numText)
  {
    if req.httpMethod != "POST" {
      return Response(405, Message(Some("Method not allowed")));
    }
    if req.body.None? || req.body.value == JNull {
      return Runtime500;
    }
    var body := req.body;
    var project := ParseProject(Member(body, "project").Value());
    if project.None? {
      return Runtime500;
    }
    var p := project.value;
    if !Configured(env.geminiKey) {
      return Response(500, Message(Some(KeyMissingMessage)));
    }

    // Pass 1: identification.
    var idAnswer := model(Identify(IdentificationPrompt(p)));
    if idAnswer.ModelThrew? {
      return Response(500, Message(Some(idAnswer.message)));
    }
    var parsed := parse(Text.Trim(StripFences(idAnswer.text)));

    // Pass 2: lookups; the context and the sources stay empty unless something was found.
    var grounded := GroundMaterials(p, parsed, env.serpKey, lookup, numText);
    if grounded.Err? {
      return grounded.error;
    }
    var found := grounded.value;
    var groundingContext := "";
    var sources: seq<Json> := [];
    if found != [] {
      groundingContext := GroundingContext(found, numText);
      sources := SourcesJson(found, numText);
    }

    resp := FinishRequest(p, body, found, groundingContext, sources, model, parse, numText);
  }

  /** Pass 3 and the final pass as the handler runs them, given the context and sources of pass 2. */
  method FinishRequest(p: Project, body: Option<Json>, found: seq<Priced>, groundingContext: string, sources: seq<Json>,
                       model: ModelCall -> ModelAnswer, parse: string -> Option<Json>, numText: real -> string) returns (resp: Response)
    requires groundingContext == GroundingContext(found, numText) && sources == SourcesJson(found, numText)
    ensures resp == Finish(p, body, found, model, parse, numText)
  {
    var rag := RagContext(Member(body, "historicalBids").Value(), numText);
    if rag.None? {
      return Runtime500;
    }
    var attach := AttachmentStep(Member(body, "attachment").Value());
    var image: Option<ImagePart> := None;
    match attach {
      case AttachCrash => return Runtime500;
      case NoImage =>
      case Image(part) => image := Some(part);
    }
    var answer := model(Synthesize(FinalPrompt(p, groundingContext, rag.value), image));
    if answer.ModelThrew? {
      return Response(500, Message(Some(answer.message)));
    }
    var output := parse(answer.text);
    if output.None? {
      return Runtime500;
    }
    resp := Response(200, Estimate(MergeSources(output.value, sources)));
  }
}
