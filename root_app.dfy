/**
 * The shell of the first app generation (App.tsx): the session gate in front of the paywall and the
 * dashboard, the estimate run behind the API-key gate, the proposal figures, the commit of an
 * estimate to the browser-stored ledger and the ledger's delete button.
 *
 * The component's state is a class whose fields the handlers reassign; browser storage is the
 * `LocalStore.Storage` object it holds. The estimate service is called through its model; the key
 * picker dialog, the clock and the onboarding form's random signature are parameters.
 */
module RootApp {
  import opened Wrappers
  import opened Json
  import opened EstimateTypes
  import Financial
  import LocalStore
  import Schema
  import LegacyEstimate
  import ClientEstimate

  datatype View = Dash | Intake | ResultView | Proc
  datatype Billing = Off | On

  /** What the component renders at the top level. */
  datatype Screen = Onboarding | Paywall | Main

  const EstimateAlert: string := "Nexus Node Error: Grounding systems unavailable."
  const EssentialPlan: string := "Essential (Pay-per-use)"

  /** The session the onboarding form hands over: the Essential plan, not yet subscribed. */
  function OnboardingSession(signatureChars: string, company: string, trade: string): (s: Json)
    ensures s.JObj? && Member(Some(s), "subscriptionActive") == Present(JBool(false))
    ensures Member(Some(s), "company") == Present(JStr(company)) && Member(Some(s), "trade") == Present(JStr(trade))
    ensures Member(Some(s), "plan") == Present(JStr(EssentialPlan))
  {
    JObj(map["signature" := JStr("NODE-" + signatureChars), "plan" := JStr(EssentialPlan),
      "company" := JStr(company), "trade" := JStr(trade), "subscriptionActive" := JBool(false)])
  }

  /** The gate: no session shows onboarding, an unsubscribed session the paywall. */
  function ScreenFor(session: Option<Json>): (s: Screen)
    ensures s == Onboarding <==> !Truthy(session)
    ensures s == Main <==> Truthy(session) && Truthy(Member(session, "subscriptionActive").Value())
  {
    if !Truthy(session) then Onboarding
    else if !Truthy(Member(session, "subscriptionActive").Value()) then Paywall
    else Main
  }

  /** A fresh onboarding session always lands on the paywall. */
  lemma OnboardingShowsPaywall(signatureChars: string, company: string, trade: string)
    ensures ScreenFor(Some(OnboardingSession(signatureChars, company, trade))) == Paywall
  {
  }

  /** `{...session, plan, subscriptionActive: true}`. */
  function Subscribed(session: Json, plan: string): (s: Json)
    ensures s.JObj? && Member(Some(s), "plan") == Present(JStr(plan)) && Member(Some(s), "subscriptionActive") == Present(JBool(true))
    ensures forall k :: k in SpreadFields(session) && k != "plan" && k != "subscriptionActive" ==>
      k in s.fields && s.fields[k] == SpreadFields(session)[k]
    ensures forall k :: k in s.fields ==> k in SpreadFields(session) || k == "plan" || k == "subscriptionActive"
  {
    JObj(SpreadFields(session)["plan" := JStr(plan)]["subscriptionActive" := JBool(true)])
  }

  /** A subscribed session passes the gate. */
  lemma SubscribedIsMain(session: Json, plan: string)
    ensures ScreenFor(Some(Subscribed(session, plan))) == Main
  {
  }

  /** A grounding source as it is stored: `uri` is left out when absent. */
  function SourceJson(s: Source): (r: Json)
    ensures r.JObj? && r.fields.Keys <= {"title", "uri"}
    ensures "title" in r.fields && r.fields["title"] == JStr(s.title)
    ensures "uri" in r.fields <==> s.uri.Some?
    ensures s.uri.Some? ==> "uri" in r.fields && r.fields["uri"] == JStr(s.uri.value)
  {
    var f := map["title" := JStr(s.title)];
    JObj(if s.uri.Some? then f["uri" := JStr(s.uri.value)] else f)
  }

  function SourcesJson(ss: seq<Source>): (r: seq<Json>)
    ensures |r| == |ss|
  {
    if ss == [] then [] else [SourceJson(ss[0])] + SourcesJson(ss[1..])
  }

  /** The own fields `{...activeEst}` copies: none for a missing estimate. */
  function EstimateFields(est: Option<EstimateResult>): (r: map<string, Json>)
    ensures est.None? ==> r == map[]
    ensures est.Some? ==> ("groundingSources" in r <==> est.value.groundingSources.Some?)
    ensures est.Some? && est.value.groundingSources.Some? ==>
      "groundingSources" in r && r["groundingSources"] == JArr(SourcesJson(est.value.groundingSources.value))
    ensures est.Some? ==> "projectSummary" in r && r["projectSummary"] == JStr(est.value.projectSummary)
  {
    match est
    case None => map[]
    case Some(e) =>
      var f := Schema.EstimateJson(e).fields;
      if e.groundingSources.Some? then f["groundingSources" := JArr(SourcesJson(e.groundingSources.value))] else f
  }

  /** The copied fields of an estimate are read back by the reply schema as that estimate, less the
      sources, which the schema does not name. */
  lemma CopiedEstimateReparses(e: EstimateResult)
    ensures Schema.ParseEstimate(JObj(EstimateFields(Some(e)))) == Schema.Valid(e.(groundingSources := None))
  {
    var f := Schema.EstimateJson(e).fields;
    if e.groundingSources.Some? {
      var extra := map["groundingSources" := JArr(SourcesJson(e.groundingSources.value))];
      assert EstimateFields(Some(e)) == f + extra;
      Schema.UnknownKeysIgnored(f, extra);
    }
    Schema.EstimateRoundTrip(e);
  }

  /** The ledger record of `handleCommit`: the estimate's fields overlaid with the ledger fields, as the
      stored JSON holds it (a non-finite total becomes null). */
  function CommitRecord(est: Option<EstimateResult>, project: ProjectData, markup: int, overhead: int,
                        id: real, createdAt: string): (r: Json)
    ensures r.JObj?
    ensures Member(Some(r), "id") == Present(JNum(id)) && Member(Some(r), "created_at") == Present(JStr(createdAt))
    ensures Member(Some(r), "client_name") == Present(JStr(project.scope)) && Member(Some(r), "county") == Present(JStr(project.location))
    ensures Member(Some(r), "total_cost") == Present(Financial.Stored(Financial.Figure(est, markup, overhead).final))
    ensures forall k :: k in EstimateFields(est) && k !in LedgerKeys ==> k in r.fields && r.fields[k] == EstimateFields(est)[k]
    ensures forall k :: k in r.fields ==> k in EstimateFields(est) || k in LedgerKeys
  {
    JObj(EstimateFields(est)["id" := JNum(id)]["client_name" := JStr(project.scope)]
      ["total_cost" := Financial.Stored(Financial.Figure(est, markup, overhead).final)]
      ["county" := JStr(project.location)]["created_at" := JStr(createdAt)])
  }

  const LedgerKeys: set<string> := {"id", "client_name", "total_cost", "county", "created_at"}

  /** Committing an estimate with the sliders in range adds its final price to "Lifetime Billed". */
  lemma CommitBillsFinal(e: EstimateResult, project: ProjectData, markup: int, overhead: int,
                         id: real, createdAt: string, history: seq<Json>)
    requires Financial.InSliderRange(markup, overhead)
    ensures var final := Financial.Figure(Some(e), markup, overhead).final;
      final.Finite? &&
      Financial.LifetimeBilled([CommitRecord(Some(e), project, markup, overhead, id, createdAt)] + history)
        == final.value + Financial.LifetimeBilled(history)
  {
    Financial.SliderDivisorBounds(markup, overhead);
    Financial.CommitAddsTotal(CommitRecord(Some(e), project, markup, overhead, id, createdAt), history);
  }

  class App {
    /** Browser storage. */
    const store: LocalStore.Storage
    /** `null` is None. */
    var session: Option<Json>
    var view: View
    var billing: Billing
    var history: seq<Json>
    var activeEst: Option<EstimateResult>
    var blueprint: Option<string>
    var markup: int
    var overhead: int
    var paying: bool
    var project: ProjectData
    /** The `alert` calls made so far. */
    var alerts: seq<string>

    /** The sliders only produce positions within their ranges. */
    predicate Valid()
      reads this
    {
      Financial.InSliderRange(markup, overhead)
    }

    constructor (store: LocalStore.Storage)
      ensures this.store == store && session.None? && view == Dash && billing == Off && history == []
      ensures activeEst.None? && blueprint.None? && !paying && alerts == []
      ensures markup == Financial.DefaultMarkup && overhead == Financial.DefaultOverhead
      ensures project == ProjectData("", "", "medium", "")
      ensures Valid()
    {
      this.store := store;
      session := None;
      view := Dash;
      billing := Off;
      history := [];
      activeEst := None;
      blueprint := None;
      markup := Financial.DefaultMarkup;
      overhead := Financial.DefaultOverhead;
      paying := false;
      project := ProjectData("", "", "medium", "");
      alerts := [];
    }

    /** The mount effect: a stored truthy session is taken, the ledger is read, and a previously
        selected API key switches billing on. */
    method Mount(keySelected: bool)
      modifies this
      ensures session == (if Truthy(store.sessionSlot) then store.sessionSlot else old(session))
      ensures history == store.History()
      ensures billing == (if keySelected then On else old(billing))
      ensures view == old(view) && activeEst == old(activeEst) && markup == old(markup) && overhead == old(overhead)
      ensures paying == old(paying) && project == old(project) && blueprint == old(blueprint) && alerts == old(alerts)
    {
      var s := store.GetSession();
      if Truthy(s) {
        session := s;
      }
      history := store.GetHistory();
      if keySelected {
        billing := On;
      }
    }

    /** The screen the app renders for its current session. */
    function Screen(): (s: Screen)
      reads this
      ensures s == Onboarding <==> !Truthy(session)
      ensures s == Paywall <==> Truthy(session) && !Truthy(Member(session, "subscriptionActive").Value())
    {
      ScreenFor(session)
    }

    /** The onboarding form's hand-over: the session is set (and not stored). */
    method CompleteOnboarding(signatureChars: string, company: string, trade: string)
      modifies this
      ensures session == Some(OnboardingSession(signatureChars, company, trade))
      ensures Screen() == Paywall
      ensures view == old(view) && history == old(history) && billing == old(billing) && markup == old(markup) && overhead == old(overhead)
    {
      session := Some(OnboardingSession(signatureChars, company, trade));
    }

    /** `handleSubscriptionComplete`: without a session nothing happens; otherwise the plan is set, the
        subscription activated, other fields kept, and the new session stored. */
    method HandleSubscriptionComplete(plan: string)
      modifies this, store
      ensures !Truthy(old(session)) ==> session == old(session) && store.sessionSlot == old(store.sessionSlot)
      ensures Truthy(old(session)) ==>
        session == Some(Subscribed(old(session).value, plan)) && store.sessionSlot == session && Screen() == Main
      ensures store.historySlot == old(store.historySlot)
      ensures view == old(view) && history == old(history) && billing == old(billing) && activeEst == old(activeEst)
      ensures markup == old(markup) && overhead == old(overhead) && paying == old(paying) && alerts == old(alerts)
    {
      if !Truthy(session) {
        return;
      }
      var newSession := Subscribed(session.value, plan);
      session := Some(newSession);
      store.SaveSession(newSession);
      SubscribedIsMain(old(session).value, plan);
    }

    /** `runEstimate`. With billing off the key picker opens, billing turns on and no estimate runs.
        Otherwise the older estimate service runs on the project and blueprint: success shows the
        result, failure goes back to the intake form with an alert. */
    method RunEstimate(model: ClientEstimate.Request -> ClientEstimate.ModelOutcome, parse: string -> Option<Json>)
      modifies this
      ensures old(billing) == Off ==>
        billing == On && view == old(view) && activeEst == old(activeEst) && alerts == old(alerts)
      ensures old(billing) == On ==> billing == On
      ensures old(billing) == On ==>
        (match LegacyEstimate.Generate(project, blueprint, model, parse)
         case Ok(e) => view == ResultView && activeEst == Some(e) && alerts == old(alerts)
         case Err(_) => view == Intake && activeEst == old(activeEst) && alerts == old(alerts) + [EstimateAlert])
      ensures session == old(session) && history == old(history) && project == old(project) && blueprint == old(blueprint)
      ensures markup == old(markup) && overhead == old(overhead) && paying == old(paying)
    {
      if billing == Off {
        billing := On;
        return;
      }
      view := Proc;
      var outcome := LegacyEstimate.Generate(project, blueprint, model, parse);
      match outcome
      case Ok(e) =>
        activeEst := Some(e);
        view := ResultView;
      case Err(_) =>
        view := Intake;
        alerts := alerts + [EstimateAlert];
    }

    /** The `financial` memo. */
    function Proposal(): (f: Financial.Figures)
      reads this
      ensures activeEst.None? ==> f.base == 0.0 && f.final == Finite(0.0)
      ensures Valid() && activeEst.Some? ==>
        f.final.Finite? && f.final.value * Financial.Divisor(markup, overhead) == f.base
    {
      Financial.Figure(activeEst, markup, overhead)
    }

    /** The "Lifetime Billed" figure of the dashboard; `None` when a `null` record makes it throw. */
    function LifetimeBilled(): (b: Option<real>)
      reads this
      ensures b.None? <==> JNull in history
      ensures history == [] ==> b == Some(0.0)
      ensures b.Some? ==> b.value == Financial.LifetimeBilled(history)
      ensures b.Some? && (forall k :: 0 <= k < |history| ==> Financial.Billed(history[k]) >= 0.0) ==> b.value >= 0.0
    {
      Financial.Dashboard(history)
    }

    /** `handleCommit`: the record is stored at the front of the ledger, the ledger shown is the one
        stored, and the dashboard opens. */
    method HandleCommit(id: real, createdAt: string)
      modifies this, store
      ensures history == [CommitRecord(old(activeEst), old(project), old(markup), old(overhead), id, createdAt)]
        + old(store.History())
      ensures store.History() == history && store.sessionSlot == old(store.sessionSlot)
      ensures !paying && view == Dash
      ensures Valid() && activeEst.Some? && JNull !in old(store.History()) ==>
        LifetimeBilled() == Some(Proposal().final.value + Financial.LifetimeBilled(old(store.History())))
      ensures JNull in old(store.History()) ==> LifetimeBilled().None?
      ensures session == old(session) && activeEst == old(activeEst) && project == old(project)
      ensures markup == old(markup) && overhead == old(overhead) && billing == old(billing) && alerts == old(alerts)
    {
      ghost var before := store.History();
      paying := true;
      var record := CommitRecord(activeEst, project, markup, overhead, id, createdAt);
      var updated := store.SaveEstimate(record);
      history := updated;
      paying := false;
      view := Dash;
      assert history == [record] + before;
      Financial.DashboardPrepend(record, before);
      if Valid() && activeEst.Some? {
        CommitBillsFinal(activeEst.value, project, markup, overhead, id, createdAt, before);
        assert Financial.Dashboard(history) == if JNull in before then None
          else Some(Proposal().final.value + Financial.LifetimeBilled(before));
      }
    }

    /** The ledger's delete button: the ledger becomes the stored list without the id. When an entry is
        `null` the filter throws and nothing changes. */
    method DeleteEntry(id: Json)
      modifies this, store
      ensures var r := LocalStore.WithoutId(old(store.History()), id);
        (r.Some? ==> history == r.value && store.History() == r.value) &&
        (r.None? ==> history == old(history) && store.historySlot == old(store.historySlot))
      ensures store.sessionSlot == old(store.sessionSlot)
      ensures session == old(session) && view == old(view) && activeEst == old(activeEst)
      ensures markup == old(markup) && overhead == old(overhead)
    {
      var updated := store.DeleteEstimate(id);
      if updated.Some? {
        history := updated.value;
      }
    }

    /** The logout button: the stored session is cleared and the page reloads, which mounts a fresh
        component over the same storage. */
    method Logout(keySelected: bool)
      modifies this, store
      ensures store.sessionSlot.None? && store.historySlot == old(store.historySlot)
      ensures session.None? && Screen() == Onboarding
      ensures history == store.History() && view == Dash && activeEst.None? && !paying && alerts == []
      ensures billing == (if keySelected then On else Off)
      ensures markup == Financial.DefaultMarkup && overhead == Financial.DefaultOverhead && Valid()
    {
      store.ClearSession();
      session := None;
      view := Dash;
      billing := Off;
      history := [];
      activeEst := None;
      blueprint := None;
      markup := Financial.DefaultMarkup;
      overhead := Financial.DefaultOverhead;
      paying := false;
      project := ProjectData("", "", "medium", "");
      alerts := [];
      Mount(keySelected);
    }

    /** The overhead range input. */
    method SetOverhead(v: int)
      requires Financial.MinOverhead <= v <= Financial.MaxOverhead
      requires Valid()
      modifies this
      ensures overhead == v && markup == old(markup) && Valid()
      ensures activeEst == old(activeEst) && history == old(history) && view == old(view) && session == old(session)
    {
      overhead := v;
    }

    /** The markup range input. */
    method SetMarkup(v: int)
      requires Financial.MinMarkup <= v <= Financial.MaxMarkup
      requires Valid()
      modifies this
      ensures markup == v && overhead == old(overhead) && Valid()
      ensures activeEst == old(activeEst) && history == old(history) && view == old(view) && session == old(session)
    {
      markup := v;
    }
  }
}
