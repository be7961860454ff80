/**
 * The checkout-session endpoint (api/create-checkout-session.ts). It validates the request, chooses
 * the subscription line item — a configured Stripe price, or an inline monthly price from the
 * server's own pricing table — and asks Stripe for an embedded checkout session. Stripe is the
 * function `create`; a request body that is not JSON is `None`.
 */
module Checkout {
  import opened Wrappers
  import opened Json
  import Text

  datatype Request = Request(httpMethod: string, body: Option<Json>, origin: Option<string>)

  /** A line item of quantity 1: a Stripe price id, or a monthly USD price in cents (None when the
      amount is NaN). */
  datatype LineItem = PriceRef(price: string) | PriceData(productName: string, unitAmount: Option<nat>)

  /** The session asked for. Card payment, subscription mode, automatic tax and the embedded UI are
      fixed for every request. */
  datatype SessionParams = SessionParams(clientReferenceId: Json, planName: Json, lineItem: LineItem, returnUrl: string)

  datatype Stripe = StripeThrew(message: Option<string>) | Created(clientSecret: Option<Json>)

  datatype Body = Message(text: Option<string>) | Secret(clientSecret: Option<Json>)
  datatype Response = Response(status: int, body: Body)

  const MethodMessage: string := "Method not allowed"
  const MissingMessage: string := "Missing planName or userId"
  const InvalidPlanMessage: string := "Invalid plan selected"
  const PricePrefix: string := "price_"
  /** A runtime error whose message this model does not fix. */
  const Runtime500: Response := Response(500, Message(None))

  /** The server-side pricing table, in whole dollars per month; Starter and Founder are not in it. */
  const PricingTable: map<string, nat> := map["Pro" := 149, "Business" := 299, "Pro Team" := 449,
                                              "Enterprise" := 1049, "Reseller" := 549]

  /** `PRICING_TABLE[planName]`: the property key is the plan name's text, so a string is looked up as
      itself and an array such as `["Pro"]` by its joined elements. None is `undefined`. */
  function UnitAmount(planName: Json, numText: real -> string): (r: Option<nat>)
    ensures r.Some? <==> ValueText(planName, numText) in PricingTable
    ensures r.Some? ==> r.value == PricingTable[ValueText(planName, numText)] && r.value > 0
    ensures planName.JStr? ==> (r.Some? <==> planName.s in PricingTable)
  {
    var key := ValueText(planName, numText);
    if key in PricingTable then Some(PricingTable[key]) else None
  }

  function ProductName(planName: Json, numText: real -> string): string {
    "Myers Subscription: " + ValueText(planName, numText)
  }

  /** The outcome of validating the plan and choosing its line item. */
  datatype Choice = Invalid | Item(item: LineItem) | ChoiceCrash

  /** The line item as the code stands: a request with no table price but a priceId that is not a Stripe
      price passes validation and gets a NaN amount. A truthy priceId that is not a string has no
      `startsWith` and throws. */
  function ChoiceAsWritten(planName: Json, priceId: Option<Json>, numText: real -> string): (c: Choice)
    ensures c == Invalid <==> UnitAmount(planName, numText).None? && !Truthy(priceId)
    ensures c.Item? && c.item.PriceData? ==> (c.item.unitAmount.None? <==> UnitAmount(planName, numText).None?)
    ensures c.Item? && c.item.PriceData? && c.item.unitAmount.Some? ==>
      c.item.unitAmount == Some(100 * PricingTable[ValueText(planName, numText)])
  {
    var unit := UnitAmount(planName, numText);
    if unit.None? && !Truthy(priceId) then Invalid
    else if Truthy(priceId) && !priceId.value.JStr? then ChoiceCrash
    else if Truthy(priceId) && Text.StartsWith(priceId.value.s, PricePrefix) then Item(PriceRef(priceId.value.s))
    else Item(PriceData(ProductName(planName, numText), if unit.Some? then Some(unit.value * 100) else None))
  }

  /** The line item as validation intends: a plan with no table price is accepted only with a Stripe
      price id. */
  function Choose(planName: Json, priceId: Option<Json>, numText: real -> string): (c: Choice)
    ensures c == Invalid <==> UnitAmount(planName, numText).None? && !(Truthy(priceId) && priceId.value.JStr? && Text.StartsWith(priceId.value.s, PricePrefix))
    ensures c.Item? && c.item.PriceData? ==>
      ValueText(planName, numText) in PricingTable && c.item.unitAmount == Some(100 * PricingTable[ValueText(planName, numText)])
    ensures c.Item? && c.item.PriceRef? ==> priceId == Some(JStr(c.item.price)) && Text.StartsWith(c.item.price, PricePrefix)
    ensures c == ChoiceCrash <==> Truthy(priceId) && !priceId.value.JStr? && UnitAmount(planName, numText).Some?
  {
    var unit := UnitAmount(planName, numText);
    if Truthy(priceId) && priceId.value.JStr? && Text.StartsWith(priceId.value.s, PricePrefix) then Item(PriceRef(priceId.value.s))
    else if unit.None? then Invalid
    else if Truthy(priceId) && !priceId.value.JStr? then ChoiceCrash
    else Item(PriceData(ProductName(planName, numText), Some(unit.value * 100)))
  }

  /** Where the code as written does not produce a NaN amount, the intended choice is the same, except
      that a non-string priceId for an unknown plan is refused rather than thrown. */
  lemma ChooseAgrees(planName: Json, priceId: Option<Json>, numText: real -> string)
    requires var c := ChoiceAsWritten(planName, priceId, numText); !(c.Item? && c.item.PriceData? && c.item.unitAmount.None?)
    requires !(ChoiceAsWritten(planName, priceId, numText) == ChoiceCrash && UnitAmount(planName, numText).None?)
    ensures Choose(planName, priceId, numText) == ChoiceAsWritten(planName, priceId, numText)
  {
  }

  const ReturnPath: string := "/?return_from_checkout=true&session_id={CHECKOUT_SESSION_ID}"

  /** The return URL: the request's origin header (the text "null" when absent), then the path that
      brings the session id back to the app. */
  function ReturnUrl(origin: Option<string>): (u: string)
    ensures origin.Some? ==> Text.StartsWith(u, origin.value)
    ensures origin.None? ==> Text.StartsWith(u, "null")
    ensures |u| >= |ReturnPath| && u[|u| - |ReturnPath|..] == ReturnPath
  {
    var host := if origin.Some? then origin.value else "null";
    assert (host + ReturnPath)[..|host|] == host;
    host + ReturnPath
  }

  /** The destructured request fields that pass the first checks: the plan, the user and the priceId
      (None is `undefined`); or the refusal. */
  function Fields(req: Request): (r: Result<(Json, Json, Option<Json>), Response>)
    ensures req.httpMethod != "POST" ==> r == Err(Response(405, Message(Some(MethodMessage))))
    ensures req.httpMethod == "POST" && (req.body.None? || req.body.value == JNull) ==> r == Err(Runtime500)
    ensures r.Ok? ==> req.body.Some? && req.body.value.JObj?
    ensures r.Ok? ==> "planName" in req.body.value.fields && r.value.0 == req.body.value.fields["planName"]
    ensures r.Ok? ==> "userId" in req.body.value.fields && r.value.1 == req.body.value.fields["userId"]
    ensures r.Ok? ==> r.value.2 == Member(req.body, "priceId").Value()
    ensures r.Ok? ==> Truthy(Some(r.value.0)) && Truthy(Some(r.value.1))
  {
    if req.httpMethod != "POST" then Err(Response(405, Message(Some(MethodMessage))))
    else if req.body.None? then Err(Runtime500)
    else
      var body := req.body;
      if Member(body, "planName").Throws? then Err(Runtime500)
      else
        var planName := Member(body, "planName").Value();
        var userId := Member(body, "userId").Value();
        match (planName, userId)
        case (Some(plan), Some(user)) =>
          if !Truthy(planName) || !Truthy(userId) then Err(Response(400, Message(Some(MissingMessage))))
          else Ok((plan, user, Member(body, "priceId").Value()))
        case _ => Err(Response(400, Message(Some(MissingMessage))))
  }

  /** The session for a chosen line item, or the refusal a choice leads to. */
  function Session(req: Request, plan: Json, user: Json, c: Choice): Result<SessionParams, Response> {
    match c
    case Invalid => Err(Response(400, Message(Some(InvalidPlanMessage))))
    case ChoiceCrash => Err(Runtime500)
    case Item(item) => Ok(SessionParams(user, plan, item, ReturnUrl(req.origin)))
  }

  /** Everything before the call to Stripe as the code stands: the refusal, or the session to ask for. */
  function Prepare(req: Request, numText: real -> string): (r: Result<SessionParams, Response>)
    ensures Fields(req).Err? ==> r == Err(Fields(req).error)
    ensures r.Ok? ==> Fields(req).Ok? && r.value.planName == Fields(req).value.0
    ensures r.Ok? ==> r.value.clientReferenceId == Fields(req).value.1 && r.value.returnUrl == ReturnUrl(req.origin)
    ensures Fields(req).Ok? ==> var (plan, _, priceId) := Fields(req).value;
      (r == Err(Response(400, Message(Some(InvalidPlanMessage)))) <==> UnitAmount(plan, numText).None? && !Truthy(priceId))
    ensures r.Ok? && r.value.lineItem.PriceData? ==>
      (r.value.lineItem.unitAmount.None? <==> UnitAmount(r.value.planName, numText).None?)
  {
    match Fields(req)
    case Err(refusal) => Err(refusal)
    case Ok((plan, user, priceId)) => Session(req, plan, user, ChoiceAsWritten(plan, priceId, numText))
  }

  /** Everything before the call to Stripe with the intended validation: a plan without a table price
      needs a Stripe price id. */
  function PrepareCorrected(req: Request, numText: real -> string): (r: Result<SessionParams, Response>)
    ensures Fields(req).Err? ==> r == Err(Fields(req).error)
    ensures r.Ok? ==> Fields(req).Ok? && r.value.planName == Fields(req).value.0
    ensures r.Ok? ==> r.value.clientReferenceId == Fields(req).value.1 && r.value.returnUrl == ReturnUrl(req.origin)
    ensures r.Ok? && r.value.lineItem.PriceData? ==>
      r.value.lineItem.unitAmount.Some? && r.value.lineItem.unitAmount.value > 0
  {
    match Fields(req)
    case Err(refusal) => Err(refusal)
    case Ok((plan, user, priceId)) => Session(req, plan, user, Choose(plan, priceId, numText))
  }

  /** Stripe's answer to a prepared session, or the refusal. */
  function Answer(prepared: Result<SessionParams, Response>, create: SessionParams -> Stripe): Response {
    match prepared
    case Err(refusal) => refusal
    case Ok(params) =>
      match create(params)
      case StripeThrew(message) => Response(500, Message(message))
      case Created(secret) => Response(200, Secret(secret))
  }

  /** `handler`. */
  function Respond(req: Request, create: SessionParams -> Stripe, numText: real -> string): (resp: Response)
    ensures resp.status == 200 <==> Prepare(req, numText).Ok? && create(Prepare(req, numText).value).Created?
    ensures resp.status == 200 ==> resp.body == Secret(create(Prepare(req, numText).value).clientSecret)
    ensures Prepare(req, numText).Ok? && create(Prepare(req, numText).value).StripeThrew? ==>
      resp == Response(500, Message(create(Prepare(req, numText).value).message))
    ensures Prepare(req, numText).Err? ==> resp == Prepare(req, numText).error
  {
    Answer(Prepare(req, numText), create)
  }

  /** The handler with the intended validation. */
  function RespondCorrected(req: Request, create: SessionParams -> Stripe, numText: real -> string): (resp: Response)
    ensures resp.status == 200 <==> PrepareCorrected(req, numText).Ok? && create(PrepareCorrected(req, numText).value).Created?
    ensures PrepareCorrected(req, numText).Err? ==> resp == PrepareCorrected(req, numText).error
  {
    Answer(PrepareCorrected(req, numText), create)
  }

  /** A request for plan "Gold" with priceId "abc" is sent to Stripe with a NaN amount; the intended
      validation refuses it as an invalid plan. */
  lemma NaNAmountSentToStripe(userId: string, create: SessionParams -> Stripe, numText: real -> string)
    requires userId != ""
    ensures var body := JObj(map["planName" := JStr("Gold"), "userId" := JStr(userId), "priceId" := JStr("abc")]);
      var req := Request("POST", Some(body), None);
      Prepare(req, numText) == Ok(SessionParams(JStr(userId), JStr("Gold"), PriceData(ProductName(JStr("Gold"), numText), None), ReturnUrl(None)))
      && RespondCorrected(req, create, numText) == Response(400, Message(Some(InvalidPlanMessage)))
  {
    var body := JObj(map["planName" := JStr("Gold"), "userId" := JStr(userId), "priceId" := JStr("abc")]);
    assert Member(Some(body), "planName").Value() == Some(JStr("Gold"));
    assert Member(Some(body), "userId").Value() == Some(JStr(userId));
    assert Member(Some(body), "priceId").Value() == Some(JStr("abc"));
    var req := Request("POST", Some(body), None);
    assert Fields(req) == Ok((JStr("Gold"), JStr(userId), Some(JStr("abc"))));
    UnknownPlanGetsNaN(numText);
  }

  /** An unknown plan with priceId "abc" gets a NaN amount as the code stands; the intended choice
      refuses it. */
  lemma UnknownPlanGetsNaN(numText: real -> string)
    ensures ChoiceAsWritten(JStr("Gold"), Some(JStr("abc")), numText) == Item(PriceData(ProductName(JStr("Gold"), numText), None))
    ensures Choose(JStr("Gold"), Some(JStr("abc")), numText) == Invalid
  {
    assert !Text.StartsWith("abc", PricePrefix);
  }

  /** A truthy priceId that is not a string has no `startsWith`: the handler answers 500. The intended
      validation refuses it as an invalid plan when the plan has no table price. */
  lemma NonStringPriceIdFails(plan: string, userId: string, create: SessionParams -> Stripe, numText: real -> string)
    requires plan != "" && userId != ""
    ensures var body := JObj(map["planName" := JStr(plan), "userId" := JStr(userId), "priceId" := JNum(5.0)]);
      var req := Request("POST", Some(body), None);
      Respond(req, create, numText) == Runtime500
      && (plan !in PricingTable ==> RespondCorrected(req, create, numText) == Response(400, Message(Some(InvalidPlanMessage))))
  {
    var body := JObj(map["planName" := JStr(plan), "userId" := JStr(userId), "priceId" := JNum(5.0)]);
    assert Fields(Request("POST", Some(body), None)) == Ok((JStr(plan), JStr(userId), Some(JNum(5.0))));
  }

  /** The table is indexed by the plan name's text, so a one-element array `["Pro"]` without a priceId
      is charged the Pro price under the product name "Myers Subscription: Pro". */
  lemma ArrayPlanNamePriced(userId: string, numText: real -> string)
    requires userId != ""
    ensures var body := JObj(map["planName" := JArr([JStr("Pro")]), "userId" := JStr(userId)]);
      Prepare(Request("POST", Some(body), None), numText)
      == Ok(SessionParams(JStr(userId), JArr([JStr("Pro")]), PriceData("Myers Subscription: Pro", Some(14900)), ReturnUrl(None)))
  {
    var plan := JArr([JStr("Pro")]);
    var body := JObj(map["planName" := plan, "userId" := JStr(userId)]);
    assert Member(Some(body), "planName").Value() == Some(plan);
    assert Member(Some(body), "userId").Value() == Some(JStr(userId));
    assert Member(Some(body), "priceId").Value() == None;
    assert Fields(Request("POST", Some(body), None)) == Ok((plan, JStr(userId), None));
    assert ValueText(plan, numText) == "Pro";
    assert UnitAmount(plan, numText) == Some(149);
    assert ProductName(plan, numText) == "Myers Subscription: Pro";
    assert ChoiceAsWritten(plan, None, numText) == Item(PriceData("Myers Subscription: Pro", Some(14900)));
  }

  /** Anything but POST is answered 405 without calling Stripe. */
  lemma NonPostRefused(req: Request, create1: SessionParams -> Stripe, create2: SessionParams -> Stripe, numText: real -> string)
    requires req.httpMethod != "POST"
    ensures Respond(req, create1, numText) == Respond(req, create2, numText) == Response(405, Message(Some(MethodMessage)))
  {
  }

  /** A request without a truthy planName or userId is refused 400, Founder requests included. */
  lemma MissingFieldsRefused(req: Request, create: SessionParams -> Stripe, numText: real -> string)
    requires req.httpMethod == "POST" && req.body.Some? && req.body.value.JObj?
    requires var f := req.body.value.fields;
      !Truthy(if "planName" in f then Some(f["planName"]) else None) || !Truthy(if "userId" in f then Some(f["userId"]) else None)
    ensures Respond(req, create, numText) == Response(400, Message(Some(MissingMessage)))
  {
  }

  /** The Founder checkout request the client sends carries no userId, so it is refused. */
  lemma FounderCheckoutRefused(priceId: string, create: SessionParams -> Stripe, numText: real -> string)
    ensures var body := JObj(map["planName" := JStr("Founder"), "priceId" := JStr(priceId)]);
      Respond(Request("POST", Some(body), None), create, numText) == Response(400, Message(Some(MissingMessage)))
  {
  }

  /** A plan outside the table without a priceId is refused as invalid. */
  lemma UnknownPlanRefused(plan: string, userId: string, create: SessionParams -> Stripe, numText: real -> string)
    requires plan != "" && userId != "" && plan !in PricingTable
    ensures var body := JObj(map["planName" := JStr(plan), "userId" := JStr(userId)]);
      Respond(Request("POST", Some(body), None), create, numText) == Response(400, Message(Some(InvalidPlanMessage)))
  {
  }

  /** A priceId starting with "price_" is used as is, whatever the table says; otherwise a table plan is
      charged its table price in cents. */
  lemma LineItemRule(plan: string, userId: string, priceId: Option<string>, numText: real -> string)
    requires plan != "" && userId != ""
    ensures var f := map["planName" := JStr(plan), "userId" := JStr(userId)];
      var body := JObj(if priceId.Some? then f["priceId" := JStr(priceId.value)] else f);
      var r := Prepare(Request("POST", Some(body), None), numText);
      (priceId.Some? && Text.StartsWith(priceId.value, PricePrefix) ==> r.Ok? && r.value.lineItem == PriceRef(priceId.value))
      && (plan in PricingTable && (priceId.None? || !Text.StartsWith(priceId.value, PricePrefix)) ==>
            r.Ok? && r.value.lineItem == PriceData(ProductName(JStr(plan), numText), Some(100 * PricingTable[plan])))
  {
    var f := map["planName" := JStr(plan), "userId" := JStr(userId)];
    var body := JObj(if priceId.Some? then f["priceId" := JStr(priceId.value)] else f);
    assert Member(Some(body), "planName").Value() == Some(JStr(plan));
    assert Member(Some(body), "userId").Value() == Some(JStr(userId));
    if priceId.Some? {
      assert Member(Some(body), "priceId").Value() == Some(JStr(priceId.value));
    } else {
      assert Member(Some(body), "priceId").Value() == None;
    }
  }
}
