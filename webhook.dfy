/**
 * The Stripe webhook (api/stripe-webhook.ts). A completed checkout either records a paid Founder on
 * the waitlist or grants the paid plan to a user. The two Firestore collections it writes are fields
 * of `Store`. Stripe's signature check is the input `event`: Err carries the message it threw. Any
 * failed Firestore write is the flag `writeOk` (Firestore also refuses `undefined` values; that
 * refusal is folded into it). The server timestamp is the value `now`.
 */
module Webhook {
  import opened Wrappers
  import opened Json

  /** `event.type` and `event.data.object`. */
  datatype Event = Event(kind: Json, session: Json)

  datatype Reply = Text(text: string) | Received
  datatype Response = Response(status: int, allow: Option<string>, body: Reply)

  const CompletedKind: string := "checkout.session.completed"
  const PaidFounder: string := "PAID_FOUNDER"
  const NotAllowed: Response := Response(405, Some("POST"), Text("Method Not Allowed"))
  const Acknowledged: Response := Response(200, None, Received)

  /** What a verified event asks for. */
  datatype Route = Ignore | RecordFounder(email: Option<Json>) | Grant(uid: Json, plan: Json)

  function RouteOf(e: Event): (r: Route)
    ensures e.kind != JStr(CompletedKind) ==> r == Ignore
    ensures r.RecordFounder? <==> e.kind == JStr(CompletedKind) && Get(Get(Some(e.session), "metadata"), "is_waitlist_signup") == Some(JStr("true"))
    ensures r.Grant? ==> Truthy(Some(r.uid)) && Truthy(Some(r.plan)) && Get(Some(e.session), "client_reference_id") == Some(r.uid)
  {
    if e.kind != JStr(CompletedKind) then Ignore
    else
      var metadata := Get(Some(e.session), "metadata");
      var uid := Get(Some(e.session), "client_reference_id");
      var plan := Get(metadata, "planName");
      if Get(metadata, "is_waitlist_signup") == Some(JStr("true")) then
        RecordFounder(Get(Get(Some(e.session), "customer_details"), "email"))
      else if Truthy(uid) && Truthy(plan) then Grant(uid.value, plan.value)
      else Ignore
  }

  predicate HasEmail(entry: map<string, Json>, email: Json) {
    "email" in entry && entry["email"] == email
  }

  predicate IsPaid(entry: map<string, Json>) {
    "status" in entry && entry["status"] == JStr(PaidFounder)
  }

  /** `query.docs[0]` for `where('email', '==', email)`: the first matching entry. */
  function FirstWithEmail(waitlist: seq<map<string, Json>>, email: Json): (r: Option<nat>)
    ensures r.Some? ==> r.value < |waitlist| && HasEmail(waitlist[r.value], email)
    ensures r.Some? ==> forall j :: 0 <= j < r.value ==> !HasEmail(waitlist[j], email)
    ensures r.None? ==> forall j :: 0 <= j < |waitlist| ==> !HasEmail(waitlist[j], email)
    decreases |waitlist|
  {
    if waitlist == [] then None
    else if HasEmail(waitlist[0], email) then Some(0)
    else match FirstWithEmail(waitlist[1..], email)
      case None => None
      case Some(i) => Some(i + 1)
  }

  /** The defined members of an object literal. */
  function Defined(members: seq<(string, Option<Json>)>): map<string, Json> {
    ObjectOf(members).fields
  }

  function PaidUpdate(session: Json, now: Json): map<string, Json> {
    Defined([("status", Some(JStr(PaidFounder))), ("stripeSessionId", Get(Some(session), "id")),
             ("stripeCustomerId", Get(Some(session), "customer")), ("paidAt", Some(now))])
  }

  function NewFounder(session: Json, email: Json, now: Json): map<string, Json> {
    var metadata := Get(Some(session), "metadata");
    Defined([("name", Get(metadata, "waitlist_name")), ("company", Get(metadata, "waitlist_company")),
             ("phone", Get(metadata, "waitlist_phone")), ("trade", Get(metadata, "waitlist_trade")),
             ("email", Some(email)), ("status", Some(JStr(PaidFounder))), ("stripeSessionId", Get(Some(session), "id")),
             ("stripeCustomerId", Get(Some(session), "customer")), ("createdAt", Some(now))])
  }

  lemma PaidEntries(session: Json, email: Json, now: Json)
    ensures IsPaid(PaidUpdate(session, now))
    ensures IsPaid(NewFounder(session, email, now)) && HasEmail(NewFounder(session, email, now), email)
  {
    var m := [("status", Some(JStr(PaidFounder))), ("stripeSessionId", Get(Some(session), "id")),
              ("stripeCustomerId", Get(Some(session), "customer")), ("paidAt", Some(now))];
    ObjectOfLatest(m, 0);
    var metadata := Get(Some(session), "metadata");
    var n := [("name", Get(metadata, "waitlist_name")), ("company", Get(metadata, "waitlist_company")),
              ("phone", Get(metadata, "waitlist_phone")), ("trade", Get(metadata, "waitlist_trade")),
              ("email", Some(email)), ("status", Some(JStr(PaidFounder))), ("stripeSessionId", Get(Some(session), "id")),
              ("stripeCustomerId", Get(Some(session), "customer")), ("createdAt", Some(now))];
    ObjectOfLatest(n, 4);
    ObjectOfLatest(n, 5);
  }

  /** The waitlist after recording a paid Founder: the first entry with the email is marked paid, or a
      new paid entry is added. */
  function RecordPaid(waitlist: seq<map<string, Json>>, session: Json, email: Json, now: Json): (w: seq<map<string, Json>>)
    ensures FirstWithEmail(waitlist, email).Some? ==> |w| == |waitlist|
    ensures FirstWithEmail(waitlist, email).None? ==> w == waitlist + [NewFounder(session, email, now)]
  {
    match FirstWithEmail(waitlist, email)
    case Some(i) => waitlist[i := waitlist[i] + PaidUpdate(session, now)]
    case None => waitlist + [NewFounder(session, email, now)]
  }

  /** The fields merged into a user who paid: the plan, an active subscription and the Stripe ids. */
  function GrantFields(session: Json, plan: Json, now: Json): map<string, Json> {
    Defined([("plan", Some(plan)), ("subscriptionActive", Some(JBool(true))), ("subscriptionStatus", Some(JStr("active"))),
             ("stripeCustomerId", Get(Some(session), "customer")), ("stripeSessionId", Get(Some(session), "id")),
             ("subscriptionUpdatedAt", Some(now)), ("updatedAt", Some(now))])
  }

  lemma GrantActivates(session: Json, plan: Json, now: Json)
    ensures var g := GrantFields(session, plan, now);
      "plan" in g && g["plan"] == plan && "subscriptionActive" in g && g["subscriptionActive"] == JBool(true)
      && "subscriptionStatus" in g && g["subscriptionStatus"] == JStr("active")
  {
    var m := [("plan", Some(plan)), ("subscriptionActive", Some(JBool(true))), ("subscriptionStatus", Some(JStr("active"))),
              ("stripeCustomerId", Get(Some(session), "customer")), ("stripeSessionId", Get(Some(session), "id")),
              ("subscriptionUpdatedAt", Some(now)), ("updatedAt", Some(now))];
    ObjectOfLatest(m, 0);
    ObjectOfLatest(m, 1);
    ObjectOfLatest(m, 2);
  }

  /** The number of paid Founder entries, which the slot count subtracts from 30. */
  function PaidCount(waitlist: seq<map<string, Json>>): (n: nat)
    ensures n <= |waitlist|
  {
    if waitlist == [] then 0
    else PaidCount(waitlist[..|waitlist| - 1]) + (if IsPaid(waitlist[|waitlist| - 1]) then 1 else 0)
  }

  lemma {:induction false} PaidCountUpdate(w: seq<map<string, Json>>, i: nat, e: map<string, Json>)
    requires i < |w|
    ensures PaidCount(w[i := e]) + (if IsPaid(w[i]) then 1 else 0) == PaidCount(w) + (if IsPaid(e) then 1 else 0)
    decreases |w|
  {
    var n := |w| - 1;
    var u := w[i := e];
    assert u[..n] == if i < n then w[..n][i := e] else w[..n];
    if i < n {
      PaidCountUpdate(w[..n], i, e);
    }
  }

  lemma PaidCountAppend(w: seq<map<string, Json>>, e: map<string, Json>)
    ensures PaidCount(w + [e]) == PaidCount(w) + (if IsPaid(e) then 1 else 0)
  {
    assert (w + [e])[..|w|] == w;
  }

  /** Recording a Founder touches exactly one entry and leaves it paid, so the paid count rises by one
      unless that entry was already paid. */
  lemma RecordPaidCounts(waitlist: seq<map<string, Json>>, session: Json, email: Json, now: Json)
    ensures var w := RecordPaid(waitlist, session, email, now);
      match FirstWithEmail(waitlist, email)
      case Some(i) =>
        IsPaid(w[i]) && (forall j :: 0 <= j < |w| && j != i ==> w[j] == waitlist[j])
        && PaidCount(w) == PaidCount(waitlist) + (if IsPaid(waitlist[i]) then 0 else 1)
      case None =>
        IsPaid(w[|waitlist|]) && w[..|waitlist|] == waitlist && PaidCount(w) == PaidCount(waitlist) + 1
  {
    PaidEntries(session, email, now);
    var w := RecordPaid(waitlist, session, email, now);
    match FirstWithEmail(waitlist, email)
    case Some(i) =>
      var e := waitlist[i] + PaidUpdate(session, now);
      assert "status" in e && e["status"] == JStr(PaidFounder);
      PaidCountUpdate(waitlist, i, e);
    case None =>
      PaidCountAppend(waitlist, NewFounder(session, email, now));
  }

  class Store {
    var waitlist: seq<map<string, Json>>
    var users: map<string, map<string, Json>>

    constructor (waitlist0: seq<map<string, Json>>, users0: map<string, map<string, Json>>)
      ensures waitlist == waitlist0 && users == users0
    {
      waitlist := waitlist0;
      users := users0;
    }

    /** `handler`: every verified POST is acknowledged 200, whatever its writes did. */
    method Handle(httpMethod: string, event: Result<Event, string>, now: Json, writeOk: bool) returns (resp: Response)
      modifies this
      ensures httpMethod != "POST" ==> resp == NotAllowed && waitlist == old(waitlist) && users == old(users)
      ensures httpMethod == "POST" && event.Err? ==>
        resp == Response(400, None, Text("Webhook Error: " + event.error)) && waitlist == old(waitlist) && users == old(users)
      ensures httpMethod == "POST" && event.Ok? ==> resp == Acknowledged
      ensures httpMethod == "POST" && event.Ok? ==>
        var route := RouteOf(event.value);
        waitlist == (if route.RecordFounder? && route.email.Some? && writeOk
                     then RecordPaid(old(waitlist), event.value.session, route.email.value, now) else old(waitlist))
        && users == (if route.Grant? && route.uid.JStr? && writeOk
                     then old(users)[route.uid.s := (if route.uid.s in old(users) then old(users)[route.uid.s] else map[])
                                                    + GrantFields(event.value.session, route.plan, now)]
                     else old(users))
    {
      if httpMethod != "POST" {
        return NotAllowed;
      }
      if event.Err? {
        return Response(400, None, Text("Webhook Error: " + event.error));
      }
      var e := event.value;
      var route := RouteOf(e);
      match route {
        case RecordFounder(email) =>
          if email.Some? && writeOk {
            waitlist := RecordPaid(waitlist, e.session, email.value, now);
          }
        case Grant(uid, plan) =>
          if uid.JStr? && writeOk {
            var current := if uid.s in users then users[uid.s] else map[];
            users := users[uid.s := current + GrantFields(e.session, plan, now)];
          }
        case Ignore =>
      }
      resp := Acknowledged;
    }
  }
}
