/**
 * The browser's price lookup (src/services/marketService.ts): one call to the price endpoint per
 * material, `null` on any failure, and a batch over the first three items that drops the `null`s.
 */
module MarketClient {
  import opened Wrappers
  import opened Json
  import MarketApi

  /** What `fetch` gives: a network failure, or a status and a body (None when it is not JSON). */
  datatype FetchOutcome = NetworkError | Http(status: int, body: Option<Json>)

  /** `fetchMaterialPrice`: the body's `result` (None for `undefined`), or `null` (Some(JNull)) when the
      request fails, the status is not 2xx, or the body cannot be read. Never throws. */
  function FetchMaterialPrice(outcome: FetchOutcome): (r: Option<Json>)
    ensures outcome.NetworkError? ==> r == Some(JNull)
    ensures outcome.Http? && !MarketApi.Ok(outcome.status) ==> r == Some(JNull)
    ensures outcome.Http? && MarketApi.Ok(outcome.status) && outcome.body.Some? && outcome.body.value.JObj?
      ==> r == (if "result" in outcome.body.value.fields then Some(outcome.body.value.fields["result"]) else None)
  {
    match outcome
    case NetworkError => Some(JNull)
    case Http(status, body) =>
      if !MarketApi.Ok(status) || body.None? then Some(JNull)
      else match Member(body, "result")
        case Throws => Some(JNull)
        case Undefined => None
        case Present(v) => Some(v)
  }

  /** `groundEstimates`: look up the names of the first three items (in order, with `fetch` giving
      the outcome for a material and a location) and keep the results that are not `null`. */
  function GroundEstimates(names: seq<string>, location: string, fetch: (string, string) -> FetchOutcome): (r: seq<Option<Json>>)
    ensures |r| <= 3 && |r| <= |names|
    ensures forall x :: x in r <==> x != Some(JNull) && exists i :: 0 <= i < |names| && i < 3 && x == Price(names[i], location, fetch)
  {
    var first := names[..if |names| < 3 then |names| else 3];
    var looked := seq(|first|, i requires 0 <= i < |first| => Price(first[i], location, fetch));
    assert forall x :: x in looked <==> exists i :: 0 <= i < |names| && i < 3 && x == Price(names[i], location, fetch) by {
      forall x | x in looked ensures exists i :: 0 <= i < |names| && i < 3 && x == Price(names[i], location, fetch) {
        var i :| 0 <= i < |looked| && looked[i] == x;
        assert first[i] == names[i];
      }
      forall x | exists i :: 0 <= i < |names| && i < 3 && x == Price(names[i], location, fetch) ensures x in looked {
        var i :| 0 <= i < |names| && i < 3 && x == Price(names[i], location, fetch);
        assert looked[i] == x;
      }
    }
    KeepNonNull(looked)
  }

  /** The lookup of one item name. */
  function Price(name: string, location: string, fetch: (string, string) -> FetchOutcome): Option<Json> {
    FetchMaterialPrice(fetch(name, location))
  }

  /** The results that are not `null`, in order. */
  function KeepNonNull(rs: seq<Option<Json>>): (r: seq<Option<Json>>)
    ensures |r| <= |rs|
    ensures forall x :: x in r <==> x in rs && x != Some(JNull)
  {
    if rs == [] then []
    else if rs[0] == Some(JNull) then KeepNonNull(rs[1..])
    else [rs[0]] + KeepNonNull(rs[1..])
  }

  /** Dropping `null`s keeps order: the kept results of a concatenation are those of each part. */
  lemma {:induction false} KeepNonNullAppend(a: seq<Option<Json>>, b: seq<Option<Json>>)
    ensures KeepNonNull(a + b) == KeepNonNull(a) + KeepNonNull(b)
  {
    if a == [] {
      assert a + b == b;
    } else {
      assert (a + b)[1..] == a[1..] + b;
      KeepNonNullAppend(a[1..], b);
    }
  }

  /** A lookup as the filter sees it: dropped when `null`. */
  function Kept(x: Option<Json>): seq<Option<Json>> {
    if x == Some(JNull) then [] else [x]
  }

  /** With three or more items the batch is the first, second and third lookup, each kept unless it is
      `null`, in that order. */
  lemma ThreeLookupsInOrder(names: seq<string>, location: string, fetch: (string, string) -> FetchOutcome)
    requires |names| >= 3
    ensures GroundEstimates(names, location, fetch)
      == Kept(Price(names[0], location, fetch)) + Kept(Price(names[1], location, fetch)) + Kept(Price(names[2], location, fetch))
  {
    var a, b, c := Price(names[0], location, fetch), Price(names[1], location, fetch), Price(names[2], location, fetch);
    var first := names[..3];
    var looked := seq(|first|, i requires 0 <= i < |first| => Price(first[i], location, fetch));
    assert looked == [a] + [b] + [c];
    KeepNonNullAppend([a] + [b], [c]);
    KeepNonNullAppend([a], [b]);
    assert KeepNonNull([a]) == Kept(a) by { assert [a][1..] == []; }
    assert KeepNonNull([b]) == Kept(b) by { assert [b][1..] == []; }
    assert KeepNonNull([c]) == Kept(c) by { assert [c][1..] == []; }
  }

  /** Items after the third are never looked up: two item lists that agree on their first three names
      give the same results. */
  lemma OnlyFirstThree(a: seq<string>, b: seq<string>, location: string, fetch: (string, string) -> FetchOutcome)
    requires |a| >= 3 && |b| >= 3 && a[..3] == b[..3]
    ensures GroundEstimates(a, location, fetch) == GroundEstimates(b, location, fetch)
  {
    assert a[0] == b[0] && a[1] == b[1] && a[2] == b[2] by {
      assert a[..3][0] == b[..3][0] && a[..3][1] == b[..3][1] && a[..3][2] == b[..3][2];
    }
  }

  /** Through the real endpoint the client's result is never `undefined`: it is the endpoint's
      result object, or `null` (no result, or any failure). */
  lemma ThroughEndpoint(httpMethod: string, body: Option<Json>, apiKey: Option<string>,
                        upstream: (string, string) -> MarketApi.Upstream, numText: real -> string)
    ensures var resp := MarketApi.Handle(httpMethod, body, apiKey, upstream, numText);
      var r := FetchMaterialPrice(Http(resp.status, MarketApi.BodyJson(resp.body)));
      r.Some? && (resp.body.Result? ==> r == Some(resp.body.result))
      && (!resp.body.Result? ==> r == Some(JNull))
  {
    var resp := MarketApi.Handle(httpMethod, body, apiKey, upstream, numText);
    if resp.body.UpstreamError? {
      assert !MarketApi.Ok(resp.status);
    }
  }
}
