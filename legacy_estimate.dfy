/**
 * The older estimate service (geminiService.ts): the same request and schema as the client service,
 * but totals are kept as the model sent them, every web chunk becomes a source (titled
 * "Market Source" when it has no title), no placeholder is added, and every failure inside the call
 * becomes one fixed message.
 */
module LegacyEstimate {
  import opened Wrappers
  import opened Json
  import opened EstimateTypes
  import Schema
  import ClientEstimate

  const FailureMessage: string := "Terminal Logic Timeout: Data grounding node failed to respond."
  const DefaultTitle: string := "Market Source"

  /** One source per chunk that has a web part, in order. */
  function WebSources(cs: seq<ClientEstimate.Chunk>): (r: seq<Source>)
    ensures |r| <= |cs|
  {
    if cs == [] then []
    else
      var rest := WebSources(cs[1..]);
      match cs[0].web
      case None => rest
      case Some(w) =>
        [Source(if ClientEstimate.Present(w.title) then w.title.value else DefaultTitle, w.uri)] + rest
  }

  /** `generateFullEstimate` of the older service; `model` and `parse` as in the client service. */
  function Generate(p: ProjectData, blueprint: Option<string>,
                    model: ClientEstimate.Request -> ClientEstimate.ModelOutcome,
                    parse: string -> Option<Json>): (r: Result<EstimateResult, string>)
    ensures r.Err? ==> r.error == FailureMessage
    ensures r.Ok? ==> (var outcome := model(ClientEstimate.BuildRequest(p, blueprint));
      && outcome.Answered?
      && parse(ClientEstimate.ReplyText(outcome.reply)).Some?
      && Schema.ParseEstimate(parse(ClientEstimate.ReplyText(outcome.reply)).value).Valid?
      && r.value == Schema.ParseEstimate(parse(ClientEstimate.ReplyText(outcome.reply)).value).value.(groundingSources :=
           Some(if outcome.reply.chunks.Some? then WebSources(outcome.reply.chunks.value) else [])))
  {
    match model(ClientEstimate.BuildRequest(p, blueprint))
    case Threw(_) => Err(FailureMessage)
    case Answered(reply) =>
      var text := if ClientEstimate.Present(reply.text) then reply.text.value else "{}";
      match parse(text)
      case None => Err(FailureMessage)
      case Some(raw) =>
        match Schema.ParseEstimate(raw)
        case Invalid(_, _) => Err(FailureMessage)
        case Valid(v) =>
          Ok(v.(groundingSources := Some(if reply.chunks.Some? then WebSources(reply.chunks.value) else [])))
  }

  /** Success returns the validated reply exactly, items and totals included. */
  lemma ItemsAsValidated(p: ProjectData, blueprint: Option<string>,
                         model: ClientEstimate.Request -> ClientEstimate.ModelOutcome,
                         parse: string -> Option<Json>, raw: Json)
    requires model(ClientEstimate.BuildRequest(p, blueprint)).Answered?
    requires var reply := model(ClientEstimate.BuildRequest(p, blueprint)).reply;
      parse(if ClientEstimate.Present(reply.text) then reply.text.value else "{}") == Some(raw)
    requires Schema.EstimateShape(raw)
    ensures Generate(p, blueprint, model, parse).Ok?
    ensures Generate(p, blueprint, model, parse).value.items == Schema.ParseEstimate(raw).value.items
  {
    Schema.EstimateAccepted(raw);
  }

  /** Success is the validated reply, spread, with `groundingSources` set to the sources of the web
      chunks (none when the reply has no grounding chunks). */
  lemma SuccessShape(p: ProjectData, blueprint: Option<string>,
                     model: ClientEstimate.Request -> ClientEstimate.ModelOutcome,
                     parse: string -> Option<Json>, raw: Json)
    requires model(ClientEstimate.BuildRequest(p, blueprint)).Answered?
    requires var reply := model(ClientEstimate.BuildRequest(p, blueprint)).reply;
      parse(if ClientEstimate.Present(reply.text) then reply.text.value else "{}") == Some(raw)
    requires Schema.EstimateShape(raw)
    ensures Schema.ParseEstimate(raw).Valid?
    ensures var reply := model(ClientEstimate.BuildRequest(p, blueprint)).reply;
      Generate(p, blueprint, model, parse)
      == Ok(Schema.ParseEstimate(raw).value.(groundingSources := Some(if reply.chunks.Some? then WebSources(reply.chunks.value) else [])))
  {
    Schema.EstimateAccepted(raw);
    ValidatedSucceeds(p, blueprint, model, parse, raw);
  }

  /** The same, for a reply the schema validates. */
  lemma ValidatedSucceeds(p: ProjectData, blueprint: Option<string>,
                          model: ClientEstimate.Request -> ClientEstimate.ModelOutcome,
                          parse: string -> Option<Json>, raw: Json)
    requires model(ClientEstimate.BuildRequest(p, blueprint)).Answered?
    requires var reply := model(ClientEstimate.BuildRequest(p, blueprint)).reply;
      parse(if ClientEstimate.Present(reply.text) then reply.text.value else "{}") == Some(raw)
    requires Schema.ParseEstimate(raw).Valid?
    ensures var reply := model(ClientEstimate.BuildRequest(p, blueprint)).reply;
      Generate(p, blueprint, model, parse)
      == Ok(Schema.ParseEstimate(raw).value.(groundingSources := Some(if reply.chunks.Some? then WebSources(reply.chunks.value) else [])))
  {
  }

  /** A reply outside the schema (an out-of-set category, type or impact, a missing required field)
      fails with the single message. */
  lemma OutOfSchemaFails(p: ProjectData, blueprint: Option<string>,
                         model: ClientEstimate.Request -> ClientEstimate.ModelOutcome,
                         parse: string -> Option<Json>, raw: Json)
    requires model(ClientEstimate.BuildRequest(p, blueprint)).Answered?
    requires var reply := model(ClientEstimate.BuildRequest(p, blueprint)).reply;
      parse(if ClientEstimate.Present(reply.text) then reply.text.value else "{}") == Some(raw)
    requires !Schema.EstimateShape(raw)
    ensures Generate(p, blueprint, model, parse) == Err(FailureMessage)
  {
    Schema.EstimateAccepted(raw);
  }

  /** Empty reply text is read as "{}", which fails. */
  lemma EmptyTextFails(p: ProjectData, blueprint: Option<string>,
                       model: ClientEstimate.Request -> ClientEstimate.ModelOutcome,
                       parse: string -> Option<Json>)
    requires model(ClientEstimate.BuildRequest(p, blueprint)).Answered?
    requires !ClientEstimate.Present(model(ClientEstimate.BuildRequest(p, blueprint)).reply.text)
    requires parse("{}") == Some(JObj(map[]))
    ensures Generate(p, blueprint, model, parse) == Err(FailureMessage)
  {
    Schema.RequiredKeyReported(JObj(map[]), "projectSummary");
  }

  /** Sources keep chunk order: those of a concatenation are those of each part, in turn. */
  lemma {:induction false} WebSourcesAppend(a: seq<ClientEstimate.Chunk>, b: seq<ClientEstimate.Chunk>)
    ensures WebSources(a + b) == WebSources(a) + WebSources(b)
  {
    if a != [] {
      assert (a + b)[1..] == a[1..] + b;
      WebSourcesAppend(a[1..], b);
    } else {
      assert a + b == b;
    }
  }

  /** No source is invented: the list is empty exactly when no chunk has a web part, and then no
      placeholder is added. */
  lemma {:induction false} WebSourcesEmpty(cs: seq<ClientEstimate.Chunk>)
    ensures WebSources(cs) == [] <==> forall i :: 0 <= i < |cs| ==> cs[i].web.None?
  {
    if cs != [] {
      WebSourcesEmpty(cs[1..]);
      if cs[0].web.None? {
        forall i | 1 <= i < |cs| ensures cs[i].web == cs[1..][i - 1].web { }
      }
    }
  }

  /** A chunk with a web part but no title is cited as "Market Source"; its uri is kept as given. */
  lemma UntitledChunk(w: ClientEstimate.Web)
    requires !ClientEstimate.Present(w.title)
    ensures WebSources([ClientEstimate.Chunk(Some(w))]) == [Source(DefaultTitle, w.uri)]
  {
  }
}
