/**
 * The won-bid context for the server prompt (src/services/ragService.ts): the first five estimates of
 * the user whose status is "won", each mapped to a bid with a margin that defaults to 20.
 */
module Rag {
  import opened Wrappers
  import opened Json

  /** A stored estimate record: its id and fields. */
  datatype Record = Record(id: string, fields: map<string, Json>)

  /** A historical bid; fields absent from the record are `undefined` (None). */
  datatype Bid = Bid(name: Option<Json>, status: Option<Json>, margins: Json, total: Option<Json>)

  const QueryLimit: nat := 5
  const DefaultMargin: real := 20.0

  /** The query's filter: this user's records whose status is "won". */
  predicate Matches(r: Record, userId: string) {
    "userId" in r.fields && r.fields["userId"] == JStr(userId)
    && "status" in r.fields && r.fields["status"] == JStr("won")
  }

  /** The matching records, in collection order. */
  function Matching(records: seq<Record>, userId: string): (r: seq<Record>)
    ensures |r| <= |records|
    ensures forall x :: x in r <==> x in records && Matches(x, userId)
  {
    if records == [] then []
    else if Matches(records[0], userId) then [records[0]] + Matching(records[1..], userId)
    else Matching(records[1..], userId)
  }

  /** The query: the first five matching records. */
  function WonQuery(records: seq<Record>, userId: string): (r: seq<Record>)
    ensures |r| <= QueryLimit
    ensures forall k :: 0 <= k < |r| ==> Matches(r[k], userId) && r[k] in records
  {
    var m := Matching(records, userId);
    m[..if |m| < QueryLimit then |m| else QueryLimit]
  }

  /** One record as a bid: summary as name, status, margins or 20 when falsy, grand total. */
  function ToBid(r: Record): (b: Bid)
    ensures Truthy(Some(b.margins)) || b.margins == JNum(DefaultMargin)
    ensures "margins" in r.fields && Truthy(Some(r.fields["margins"])) ==> b.margins == r.fields["margins"]
  {
    var margins := if "margins" in r.fields && Truthy(Some(r.fields["margins"])) then r.fields["margins"] else JNum(DefaultMargin);
    Bid(Member(Some(JObj(r.fields)), "projectSummary").Value(), Member(Some(JObj(r.fields)), "status").Value(),
      margins, Member(Some(JObj(r.fields)), "grandTotal").Value())
  }

  /** `getHistoricalContext`: `records` is the collection as read, None when the query fails. */
  function HistoricalContext(records: Option<seq<Record>>, userId: string): (r: seq<Bid>)
    ensures records.None? ==> r == []
    ensures |r| <= QueryLimit
    ensures forall k :: 0 <= k < |r| ==> r[k].status == Some(JStr("won"))
  {
    if records.None? then []
    else
      var won := WonQuery(records.value, userId);
      seq(|won|, i requires 0 <= i < |won| => ToBid(won[i]))
  }

  /** One bid per returned record, in order: the k-th bid is the k-th matching record's. */
  lemma BidsFollowRecords(records: seq<Record>, userId: string, k: nat)
    requires k < |HistoricalContext(Some(records), userId)|
    ensures k < |Matching(records, userId)|
    ensures HistoricalContext(Some(records), userId)[k] == ToBid(Matching(records, userId)[k])
  {
  }

  /** The query keeps collection order: the matches of a concatenation are those of each part. */
  lemma {:induction false} MatchingAppend(a: seq<Record>, b: seq<Record>, userId: string)
    ensures Matching(a + b, userId) == Matching(a, userId) + Matching(b, userId)
  {
    if a == [] {
      assert a + b == b;
    } else {
      assert (a + b)[1..] == a[1..] + b;
      MatchingAppend(a[1..], b, userId);
    }
  }

  /** Records of other users, or not won, never contribute. */
  lemma {:induction false} OthersIgnored(records: seq<Record>, other: Record, userId: string)
    requires !Matches(other, userId)
    ensures Matching(records + [other], userId) == Matching(records, userId)
  {
    if records != [] {
      assert (records + [other])[1..] == records[1..] + [other];
      OthersIgnored(records[1..], other, userId);
    } else {
      assert (records + [other])[1..] == [];
    }
  }

  /** The JSON array of bids as the client sends it to the server (undefined fields left out). */
  function BidsJson(bids: seq<Bid>): (r: Json)
    ensures r.JArr? && |r.elems| == |bids|
  {
    JArr(seq(|bids|, i requires 0 <= i < |bids| =>
      ObjectOf([("name", bids[i].name), ("status", bids[i].status), ("margins", Some(bids[i].margins)), ("total", bids[i].total)])))
  }
}
