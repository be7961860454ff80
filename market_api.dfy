/**
 * The price-lookup endpoint (api/market.ts): forward the material and location to the shopping
 * search, and answer with its first result mapped to the fields the client reads, with `null` when
 * there is none, the upstream status on an upstream error, and 500 on any thrown error.
 */
module MarketApi {
  import opened Wrappers
  import opened Json

  /** The shopping search's answer: the fetch threw, or a status with a body (None when the body is
      not JSON, so reading it throws). */
  datatype Upstream = FetchThrew | Reply(status: int, body: Option<Json>)

  /** A response body: a message (None when it is the text of a runtime error, not written in this
      code), the upstream error with its details, or the lookup result. */
  datatype Body = Message(text: Option<string>) | UpstreamError(details: Option<Json>) | Result(result: Json)

  datatype Response = Response(status: int, body: Body)

  const MethodMessage: string := "Method not allowed"
  const ConfigMessage: string := "SerpApi configuration missing on server"

  /** `response.ok`. */
  predicate Ok(status: int) { 200 <= status <= 299 }

  /** The JSON text of a response body, when this code writes all of it. */
  function BodyJson(b: Body): Option<Json> {
    match b
    case Message(t) => if t.Some? then Some(JObj(map["message" := JStr(t.value)])) else None
    case UpstreamError(d) => Some(ObjectOf([("message", Some(JStr("SerpApi error"))), ("details", d)]))
    case Result(r) => Some(JObj(map["result" := r]))
  }

  /** The result object for a best match: its title, extracted price, source, link and thumbnail, and
      the location as requested. */
  function PriceObject(best: Json, location: Option<Json>): Json {
    ObjectOf([("name", Member(Some(best), "title").Value()), ("price", Member(Some(best), "extracted_price").Value()),
      ("retailer", Member(Some(best), "source").Value()), ("link", Member(Some(best), "link").Value()),
      ("thumbnail", Member(Some(best), "thumbnail").Value()), ("locationGrounding", location)])
  }

  /** What the handler does with the parsed upstream data. */
  function FromData(status: int, data: Json, location: Option<Json>): (r: Response)
    ensures data == JNull ==> r == Response(500, Message(None))
  {
    if !Ok(status) then
      if data == JNull then Response(500, Message(None))
      else Response(status, UpstreamError(Member(Some(data), "error").Value()))
    else
      match Member(Some(data), "shopping_results")
      case Throws => Response(500, Message(None))
      case Undefined => Response(200, Result(JNull))
      case Present(results) =>
        if !Truthy(Some(results)) || LengthIsZero(results) then Response(200, Result(JNull))
        else match First(results)
          case None => Response(500, Message(None))
          case Some(JNull) => Response(500, Message(None))
          case Some(best) => Response(200, Result(PriceObject(best, location)))
  }

  /** The handler. `body` is the parsed request body (None when it is not JSON), `apiKey` the search
      key, `upstream` the search (given the query and location texts), `numText` number-to-text. */
  function Handle(httpMethod: string, body: Option<Json>, apiKey: Option<string>,
                  upstream: (string, string) -> Upstream, numText: real -> string): (r: Response)
    ensures httpMethod != "POST" ==> r == Response(405, Message(Some(MethodMessage)))
  {
    if httpMethod != "POST" then Response(405, Message(Some(MethodMessage)))
    else if body.None? || body == Some(JNull) then Response(500, Message(None))
    else if apiKey.None? || apiKey.value == "" then Response(500, Message(Some(ConfigMessage)))
    else
      var material := Member(body, "material").Value();
      var location := Member(body, "location").Value();
      match upstream(TemplateText(material, numText), TemplateText(location, numText))
      case FetchThrew => Response(500, Message(None))
      case Reply(status, None) => Response(500, Message(None))
      case Reply(status, Some(data)) => FromData(status, data, location)
  }

  /** Without a key the search is never consulted. */
  lemma MissingKeyNoCall(body: Json, apiKey: Option<string>, up1: (string, string) -> Upstream,
                         up2: (string, string) -> Upstream, numText: real -> string)
    requires body != JNull && (apiKey.None? || apiKey.value == "")
    ensures Handle("POST", Some(body), apiKey, up1, numText) == Handle("POST", Some(body), apiKey, up2, numText)
      == Response(500, Message(Some(ConfigMessage)))
  {
  }

  /** A non-2xx upstream answer keeps its status and says "SerpApi error". */
  lemma UpstreamStatusPropagated(status: int, data: Json, location: Option<Json>)
    requires !Ok(status) && data != JNull
    ensures FromData(status, data, location).status == status
    ensures BodyJson(FromData(status, data, location).body).value.fields["message"] == JStr("SerpApi error")
  {
    var d := Member(Some(data), "error").Value();
    ObjectOfMember([("message", Some(JStr("SerpApi error"))), ("details", d)], 0);
  }

  /** No results, or an empty result list, answers 200 with a `null` result. */
  lemma NoResultsIsNull(status: int, data: Json, location: Option<Json>)
    requires Ok(status) && data.JObj?
    requires "shopping_results" !in data.fields || data.fields["shopping_results"] in {JNull, JArr([])}
    ensures FromData(status, data, location) == Response(200, Result(JNull))
  {
  }

  /** A non-empty result list answers 200 with its first element's fields and the requested
      location. */
  lemma FirstResultChosen(status: int, data: Json, location: Option<Json>, best: Json, more: seq<Json>)
    requires Ok(status) && data.JObj? && "shopping_results" in data.fields
    requires data.fields["shopping_results"] == JArr([best] + more) && best.JObj?
    ensures var r := FromData(status, data, location);
      r.status == 200 && r.body.Result? && r.body.result == PriceObject(best, location)
    ensures var p := PriceObject(best, location).fields;
      location.Some? ==> "locationGrounding" in p && p["locationGrounding"] == location.value
    ensures var p := PriceObject(best, location).fields;
      "title" in best.fields ==> "name" in p && p["name"] == best.fields["title"]
    ensures var p := PriceObject(best, location).fields;
      "extracted_price" in best.fields ==> "price" in p && p["price"] == best.fields["extracted_price"]
  {
    var ms := [("name", Member(Some(best), "title").Value()), ("price", Member(Some(best), "extracted_price").Value()),
      ("retailer", Member(Some(best), "source").Value()), ("link", Member(Some(best), "link").Value()),
      ("thumbnail", Member(Some(best), "thumbnail").Value()), ("locationGrounding", location)];
    ObjectOfMember(ms, 0);
    ObjectOfMember(ms, 1);
    ObjectOfMember(ms, 5);
  }

  /** The request's material and location, when they are strings, are passed to the search as they
      are. */
  lemma QueryIsRequest(material: string, location: string, apiKey: string,
                       upstream: (string, string) -> Upstream, numText: real -> string)
    requires apiKey != ""
    ensures var body := JObj(map["material" := JStr(material), "location" := JStr(location)]);
      Handle("POST", Some(body), Some(apiKey), upstream, numText) ==
        match upstream(material, location)
        case FetchThrew => Response(500, Message(None))
        case Reply(status, None) => Response(500, Message(None))
        case Reply(status, Some(data)) => FromData(status, data, Some(JStr(location)))
  {
  }
}
