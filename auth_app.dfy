/**
 * The shell of the signed-in app (src/App.tsx): the auth listener that loads or creates the user's
 * session, the render gate (splash, login, paywall, nothing, main), and the handlers that subscribe,
 * run an estimate and commit it to the cloud ledger, each reporting failure through one error banner.
 *
 * The component's state is a class whose fields the handlers reassign; the cloud store is the
 * `UserStore.CloudStore` object it holds. Whether a store write is accepted, whether a read
 * succeeds, the clock, generated document ids and the estimate model are parameters.
 */
module AuthApp {
  import opened Wrappers
  import opened Json
  import opened EstimateTypes
  import Text
  import Financial
  import UserStore
  import ClientEstimate
  import ErrorHandler
  import Schema
  import RootApp

  /** A signed-in account as the auth listener reports it. */
  datatype Account = Account(uid: string, displayName: Option<string>)

  datatype View = Dash | Intake | ResultView | Proc

  /** What the component renders. */
  datatype Screen = Splash | Login | Paywall | Nothing | Main

  const SyncFailure: string := "Failed to synchronize user profile."
  const SubscriptionFailure: string := "Failed to update subscription status."
  const LedgerFailure: string := "Failed to save estimate to ledger."
  const DefaultCompany: string := "New Entity"
  const DefaultTrade: string := "GC"
  const SignatureLength: nat := 6

  /** The session created for an account without one. The plan constant the code names is missing
      from the plan enumeration, so the plan field is left undefined. */
  function DefaultSession(a: Account): (s: map<string, Json>)
    ensures "signature" in s && s["signature"] == JStr("NODE-" + Text.ToUpper(a.uid[..if |a.uid| < SignatureLength then |a.uid| else SignatureLength]))
    ensures "company" in s && s["company"] == JStr(if ClientEstimate.Present(a.displayName) then a.displayName.value else DefaultCompany)
    ensures "trade" in s && s["trade"] == JStr(DefaultTrade)
    ensures "subscriptionActive" in s && s["subscriptionActive"] == JBool(false)
    ensures "plan" !in s
  {
    var n := if |a.uid| < SignatureLength then |a.uid| else SignatureLength;
    map["signature" := JStr("NODE-" + Text.ToUpper(a.uid[..n])),
        "company" := JStr(if ClientEstimate.Present(a.displayName) then a.displayName.value else DefaultCompany),
        "trade" := JStr(DefaultTrade), "subscriptionActive" := JBool(false)]
  }

  /** The render gate, in its order of precedence. */
  function ScreenFor(loading: bool, account: Option<Account>, session: Option<map<string, Json>>): (s: Screen)
    ensures s == Splash <==> loading
    ensures s == Login <==> !loading && account.None?
    ensures s == Main <==>
      !loading && account.Some? && session.Some? && Truthy(Member(Some(JObj(session.value)), "subscriptionActive").Value())
    ensures s == Nothing <==> !loading && account.Some? && session.None?
  {
    if loading then Splash
    else if account.None? then Login
    else if session.Some? && !Truthy(Member(Some(JObj(session.value)), "subscriptionActive").Value()) then Paywall
    else if session.None? then Nothing
    else Main
  }

  /** A newly created default session always shows the paywall. */
  lemma DefaultSessionShowsPaywall(a: Account)
    ensures ScreenFor(false, Some(a), Some(DefaultSession(a))) == Paywall
  {
  }

  /** `getSession` finds a stored session for the account. */
  predicate StoredSession(current: Option<Account>, readOk: bool, users: map<string, map<string, Json>>) {
    current.Some? && readOk && current.value.uid in users
  }

  /** A user document after a merged save of `fields`. */
  function Merged(users: map<string, map<string, Json>>, uid: string, fields: map<string, Json>, now: string): map<string, Json> {
    (if uid in users then users[uid] else map[]) + fields + map["updatedAt" := JStr(now)]
  }

  /** The fields the ledger record sets over the estimate's own. */
  const LedgerKeys: set<string> := {"client_name", "total_cost", "county"}

  /** `{...activeEst, client_name, total_cost: financial.final, county}`, where `financial` is the
      result view's figure for its slider positions. */
  function CommitFields(est: Option<EstimateResult>, project: ProjectData, markup: int, overhead: int): (r: map<string, Json>)
    ensures "client_name" in r && r["client_name"] == JStr(project.scope)
    ensures "county" in r && r["county"] == JStr(project.location)
    ensures "total_cost" in r && r["total_cost"] == Financial.Stored(Financial.Figure(est, markup, overhead).final)
    ensures forall k :: k in RootApp.EstimateFields(est) && k !in LedgerKeys ==> k in r && r[k] == RootApp.EstimateFields(est)[k]
    ensures forall k :: k in r ==> k in RootApp.EstimateFields(est) || k in LedgerKeys
  {
    RootApp.EstimateFields(est)["client_name" := JStr(project.scope)]
      ["total_cost" := Financial.Stored(Financial.Figure(est, markup, overhead).final)]
      ["county" := JStr(project.location)]
  }

  /** With the result view's sliders in range the committed total is the finite final price. */
  lemma CommittedTotalIsFinal(e: EstimateResult, project: ProjectData, markup: int, overhead: int)
    requires Financial.InSliderRange(markup, overhead)
    ensures var f := Financial.Figure(Some(e), markup, overhead).final;
      f.Finite? && CommitFields(Some(e), project, markup, overhead)["total_cost"] == JNum(f.value)
  {
    Financial.SliderDivisorBounds(markup, overhead);
  }

  class App {
    /** The cloud store. */
    const store: UserStore.CloudStore
    /** The signed-in account; `null` is None. */
    var account: Option<Account>
    var session: Option<map<string, Json>>
    var view: View
    var history: seq<Json>
    var activeEst: Option<EstimateResult>
    var blueprint: Option<string>
    var paying: bool
    var loading: bool
    /** The error banner's text; `null` is None. */
    var appError: Option<string>
    var project: ProjectData

    constructor (store: UserStore.CloudStore)
      ensures this.store == store && account.None? && session.None? && view == Dash && history == []
      ensures activeEst.None? && blueprint.None? && !paying && loading && appError.None?
      ensures project == ProjectData("", "", "medium", "")
      ensures Screen() == Splash
    {
      this.store := store;
      account := None;
      session := None;
      view := Dash;
      history := [];
      activeEst := None;
      blueprint := None;
      paying := false;
      loading := true;
      appError := None;
      project := ProjectData("", "", "medium", "");
    }

    function Uid(): Option<string>
      reads this
    {
      if account.Some? then Some(account.value.uid) else None
    }

    /** The screen the app renders for its current state. */
    function Screen(): (s: Screen)
      reads this
      ensures s == Splash <==> loading
      ensures s == Paywall <==>
        !loading && account.Some? && session.Some? && !Truthy(Member(Some(JObj(session.value)), "subscriptionActive").Value())
    {
      ScreenFor(loading, account, session)
    }

    /** The auth listener. The account is recorded first. A signed-in account gets its stored session,
        or a default one which is saved; then its history is read. A rejected save throws: the banner
        reports it and session and history stay as they were. Signing out clears both. Loading ends
        in every case. */
    method AuthChanged(current: Option<Account>, sessionReadOk: bool, writeOk: bool, historyReadOk: bool,
                       now: string, time: Option<Json> -> int)
      modifies this, store
      ensures account == current && !loading
      ensures current.None? ==> session.None? && history == [] && Screen() == Login
      ensures current.None? ==> store.users == old(store.users)
      ensures current.Some? && StoredSession(current, sessionReadOk, old(store.users)) ==>
        session == Some(old(store.users)[current.value.uid]) && store.users == old(store.users)
      ensures current.Some? && !StoredSession(current, sessionReadOk, old(store.users)) && writeOk ==>
        session == Some(DefaultSession(current.value))
        && store.users == old(store.users)[current.value.uid := Merged(old(store.users), current.value.uid, DefaultSession(current.value), now)]
      ensures current.Some? && !StoredSession(current, sessionReadOk, old(store.users)) && writeOk ==> Screen() == Paywall
      ensures current.Some? && (StoredSession(current, sessionReadOk, old(store.users)) || writeOk) ==>
        history == UserStore.History(store.estimates, Some(current.value.uid), historyReadOk, time) && appError == old(appError)
      ensures current.Some? && !StoredSession(current, sessionReadOk, old(store.users)) && !writeOk ==>
        session == old(session) && history == old(history) && appError == Some(SyncFailure) && store.users == old(store.users)
      ensures store.estimates == old(store.estimates)
      ensures view == old(view) && activeEst == old(activeEst) && project == old(project) && paying == old(paying)
    {
      account := current;
      if current.Some? {
        var s := LoadSession(current.value, sessionReadOk, writeOk, now);
        if s.None? {
          appError := Some(SyncFailure);
        } else {
          session := s;
          history := UserStore.History(store.estimates, Some(current.value.uid), historyReadOk, time);
          if !StoredSession(current, sessionReadOk, old(store.users)) {
            DefaultSessionShowsPaywall(current.value);
          }
        }
      } else {
        session := None;
        history := [];
      }
      loading := false;
    }

    /** The session step of the listener: the stored session, or else the default one, saved. None
        stands for the rejected save. */
    method LoadSession(a: Account, readOk: bool, writeOk: bool, now: string) returns (s: Option<map<string, Json>>)
      modifies store
      ensures StoredSession(Some(a), readOk, old(store.users)) ==>
        s == Some(old(store.users)[a.uid]) && store.users == old(store.users)
      ensures !StoredSession(Some(a), readOk, old(store.users)) && writeOk ==>
        s == Some(DefaultSession(a)) && store.users == old(store.users)[a.uid := Merged(old(store.users), a.uid, DefaultSession(a), now)]
      ensures !StoredSession(Some(a), readOk, old(store.users)) && !writeOk ==> s.None? && store.users == old(store.users)
      ensures store.estimates == old(store.estimates)
    {
      s := store.GetSession(Some(a.uid), readOk);
      if s.None? {
        if !writeOk {
          return;
        }
        s := Some(DefaultSession(a));
        store.SaveSession(Some(a.uid), s.value, now);
      }
    }

    /** `handleSubscriptionComplete`: without a session nothing happens; otherwise the plan is set and
        the subscription activated, other fields kept, before the save; a rejected save only raises the
        banner. */
    method HandleSubscriptionComplete(plan: string, writeOk: bool, now: string)
      modifies this, store
      ensures old(session).None? ==> session == old(session) && appError == old(appError) && store.users == old(store.users)
      ensures old(session).Some? ==> var s := old(session).value["plan" := JStr(plan)]["subscriptionActive" := JBool(true)];
        session == Some(s) && (forall k :: k in old(session).value && k != "plan" && k != "subscriptionActive" ==> s[k] == old(session).value[k])
        && (writeOk ==>
              appError == old(appError) && store.users ==
              (if Uid().None? then old(store.users) else old(store.users)[Uid().value := Merged(old(store.users), Uid().value, s, now)]))
        && (!writeOk ==> appError == Some(SubscriptionFailure) && store.users == old(store.users))
      ensures old(session).Some? && !loading && account.Some? ==> Screen() == Main
      ensures store.estimates == old(store.estimates) && account == old(account) && loading == old(loading)
      ensures view == old(view) && history == old(history) && activeEst == old(activeEst) && paying == old(paying)
    {
      if session.None? {
        return;
      }
      var newSession := session.value["plan" := JStr(plan)]["subscriptionActive" := JBool(true)];
      session := Some(newSession);
      if writeOk {
        store.SaveSession(Uid(), newSession, now);
      } else {
        appError := Some(SubscriptionFailure);
      }
    }

    /** `runEstimate`: the banner is cleared and the processing view shown; the client estimate
        service then either yields the result view or sends the form back with the handled error. */
    method RunEstimate(apiKey: Option<string>, model: ClientEstimate.Request -> ClientEstimate.ModelOutcome,
                       parse: string -> Option<Json>, zodText: seq<Schema.Path> -> string)
      modifies this
      ensures match ClientEstimate.Generate(apiKey, project, blueprint, model, parse)
        case Ok(e) => view == ResultView && activeEst == Some(e) && appError.None?
        case Err(f) =>
          view == Intake && activeEst == old(activeEst) && appError == Some(ErrorHandler.HandleError(ClientEstimate.ThrownError(f, zodText)))
      ensures session == old(session) && history == old(history) && project == old(project) && blueprint == old(blueprint)
      ensures account == old(account) && loading == old(loading) && paying == old(paying)
    {
      appError := None;
      view := Proc;
      var outcome := ClientEstimate.Generate(apiKey, project, blueprint, model, parse);
      match outcome
      case Ok(e) =>
        activeEst := Some(e);
        view := ResultView;
      case Err(f) =>
        view := Intake;
        appError := Some(ErrorHandler.HandleError(ClientEstimate.ThrownError(f, zodText)));
    }

    /** `handleCommit` with the result view's slider positions. A stored record (which needs a signed-in
        account and an accepted write) replaces the history with the refreshed one and opens the
        dashboard; otherwise the banner reports the failure and nothing else moves. `paying` is false
        afterwards either way. */
    method HandleCommit(markup: int, overhead: int, writeOk: bool, newId: string, now: string,
                        readOk: bool, time: Option<Json> -> int)
      modifies this, store
      ensures var fields := CommitFields(old(activeEst), old(project), markup, overhead);
        if Uid().Some? && writeOk then
          store.estimates == old(store.estimates)
            + [UserStore.EstimateDoc(newId, fields["userId" := JStr(Uid().value)]["createdAt" := JStr(now)])]
          && history == UserStore.History(store.estimates, Uid(), readOk, time) && view == Dash && appError.None?
        else
          store.estimates == old(store.estimates) && history == old(history) && view == old(view)
          && appError == Some(LedgerFailure)
      ensures !paying && store.users == old(store.users)
      ensures session == old(session) && account == old(account) && activeEst == old(activeEst) && project == old(project)
    {
      paying := true;
      appError := None;
      var fields := CommitFields(activeEst, project, markup, overhead);
      if !writeOk {
        appError := Some(LedgerFailure);
      } else {
        var saved := store.SaveEstimate(Uid(), fields, newId, now, readOk, time);
        match saved
        case Ok(updated) =>
          history := updated;
          view := Dash;
        case Err(_) =>
          appError := Some(LedgerFailure);
      }
      paying := false;
    }

    /** The logout button: signing out makes the listener fire without an account. */
    method HandleLogout(time: Option<Json> -> int)
      modifies this, store
      ensures account.None? && session.None? && history == [] && Screen() == Login
      ensures store.users == old(store.users) && store.estimates == old(store.estimates)
      ensures view == old(view) && activeEst == old(activeEst)
    {
      AuthChanged(None, false, false, false, "", time);
    }
  }

  /** A committed estimate shows up in the refreshed history. */
  lemma CommitListed(docs: seq<UserStore.EstimateDoc>, uid: string, newId: string, fields: map<string, Json>,
                     now: string, time: Option<Json> -> int)
    ensures var d := UserStore.EstimateDoc(newId, fields["userId" := JStr(uid)]["createdAt" := JStr(now)]);
      UserStore.Listed(d) in UserStore.History(docs + [d], Some(uid), true, time)
  {
    var d := UserStore.EstimateDoc(newId, fields["userId" := JStr(uid)]["createdAt" := JStr(now)]);
    UserStore.SavedEstimateListed(docs, uid, d, time);
    var sorted := UserStore.SortNewestFirst(UserStore.OwnedBy(docs + [d], uid), time);
    var i :| 0 <= i < |sorted| && sorted[i] == d;
    assert UserStore.ListAll(sorted)[i] == UserStore.Listed(d);
  }
}
