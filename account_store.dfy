/**
 * The account data layer of the signed-in app (src/services/dbService.ts). It owns:
 *   - the monthly estimate quota and its usage counter;
 *   - the paged estimate history;
 *   - leads, with automatic walkthrough booking for hot leads;
 *   - the waitlist.
 * Collections are fields of `Workspace`. The signed-in user, clock values, generated ids and the
 * success of each read or write are parameters. Analytics events and the SMS alert are
 * fire-and-forget calls whose failures are swallowed; they are not modelled.
 */
module AccountStore {
  import opened Wrappers
  import opened Json
  import opened UserStore
  import Text

  datatype User = User(uid: string, email: Option<string>)

  const PageSize: nat := 20
  const Unlimited: real := -1.0
  const WaitlistFailure: string := "Could not join waitlist. Try again."
  const HotStatus: string := "Hot"
  const FallbackAttendee: string := "contractor@example.com"
  const FallbackSummary: string := "New Lead"
  /** 10:00 and 11:00 as minutes after midnight. */
  const WalkthroughStart: int := 600
  const WalkthroughEnd: int := 660

  // ---------------------------------------------------------------------------------------------
  // Quota

  /** `estimatesLimit !== -1 && estimatesThisMonth >= estimatesLimit` on the destructured usage, with
      JavaScript's comparison: two texts compare as text, anything else as numbers. */
  predicate OverQuota(usage: Json, toNumber: string -> JsNumber, numText: real -> string) {
    var limit := Member(Some(usage), "estimatesLimit").Value();
    var used := Member(Some(usage), "estimatesThisMonth").Value();
    limit != Some(JNum(Unlimited)) && AtLeast(used, limit, toNumber, numText)
  }

  /** The refusal thrown at the limit, which names the limit as a template literal writes it. */
  function QuotaMessage(usage: Json, numText: real -> string): (m: string)
    ensures Text.StartsWith(m, "Plan limit reached: You can only create ")
    ensures usage.JObj? && "estimatesLimit" in usage.fields && usage.fields["estimatesLimit"].JStr? ==>
      m == "Plan limit reached: You can only create " + usage.fields["estimatesLimit"].s
        + " estimates per month. Upgrade to create more."
  {
    "Plan limit reached: You can only create " + TemplateText(Member(Some(usage), "estimatesLimit").Value(), numText)
      + " estimates per month. Upgrade to create more."
  }

  function UsageOf(session: Option<map<string, Json>>): Option<Json> {
    if session.Some? && "usage" in session.value then Some(session.value["usage"]) else None
  }

  /** The gate before any write: the refusal message, or None to go ahead. Only a session with a
      truthy usage is checked. */
  function QuotaRefusal(session: Option<map<string, Json>>, toNumber: string -> JsNumber, numText: real -> string)
    : (r: Option<string>)
    ensures r.Some? <==> Truthy(UsageOf(session)) && OverQuota(UsageOf(session).value, toNumber, numText)
    ensures r.Some? ==> r == Some(QuotaMessage(UsageOf(session).value, numText))
  {
    var usage := UsageOf(session);
    if Truthy(usage) && OverQuota(usage.value, toNumber, numText) then Some(QuotaMessage(usage.value, numText)) else None
  }

  /** A usage object holding a count and a limit. */
  function Usage(used: Json, limit: Json): map<string, Json> {
    map["usage" := JObj(map["estimatesThisMonth" := used, "estimatesLimit" := limit])]
  }

  /** A limit of -1 never refuses; a numeric limit refuses exactly once the numeric count reaches it. */
  lemma QuotaRule(used: real, limit: real, toNumber: string -> JsNumber, numText: real -> string)
    ensures QuotaRefusal(Some(Usage(JNum(used), JNum(limit))), toNumber, numText).Some? <==> limit != Unlimited && used >= limit
  {
    AtLeastCases(Some(JNum(used)), Some(JNum(limit)), toNumber, numText);
  }

  /** A count stored as text is read as the number it spells against a numeric limit. */
  lemma TextCountAgainstNumber(used: string, limit: real, toNumber: string -> JsNumber, numText: real -> string)
    requires toNumber(used).Finite?
    ensures QuotaRefusal(Some(Usage(JStr(used), JNum(limit))), toNumber, numText).Some? <==>
      limit != Unlimited && toNumber(used).value >= limit
  {
  }

  /** A count and a limit both stored as text compare as text: "10" estimates do not reach a limit of "9". */
  lemma TextCountAgainstTextLimit(toNumber: string -> JsNumber, numText: real -> string)
    ensures QuotaRefusal(Some(Usage(JStr("10"), JStr("9"))), toNumber, numText).None?
    ensures QuotaRefusal(Some(Usage(JNum(10.0), JNum(9.0))), toNumber, numText).Some?
  {
    assert Text.Before("10", "9");
    QuotaRule(10.0, 9.0, toNumber, numText);
  }

  /** Without a session, with a session without usage, or with a usage that has no count, nothing is
      refused. */
  lemma NoUsageNoGate(session: Option<map<string, Json>>, toNumber: string -> JsNumber, numText: real -> string)
    requires session.None? || "usage" !in session.value
      || (session.value["usage"].JObj? && "estimatesThisMonth" !in session.value["usage"].fields)
    ensures QuotaRefusal(session, toNumber, numText).None?
  {
    if session.Some? && "usage" in session.value {
      AtLeastCases(None, Member(Some(session.value["usage"]), "estimatesLimit").Value(), toNumber, numText);
    }
  }

  // ---------------------------------------------------------------------------------------------
  // Usage counter

  /** `(x || 0) + 1`: a falsy count restarts at 1; a number is incremented; `true` gives 2; any other
      truthy value is concatenated with "1". */
  function Incremented(x: Option<Json>, numText: real -> string): (r: Json)
    ensures !Truthy(x) ==> r == JNum(1.0)
    ensures x.Some? && x.value.JNum? ==> r == JNum(x.value.n + 1.0)
  {
    match x
    case None => JNum(1.0)
    case Some(v) =>
      if !Truthy(x) then JNum(1.0)
      else (match v
        case JNum(n) => JNum(n + 1.0)
        case JBool(_) => JNum(2.0)
        case JStr(s) => JStr(s + "1")
        case _ => JStr(ValueText(v, numText) + "1"))
  }

  /** The usage written back as the code stands: `{...session.usage, estimatesThisMonth: ...}` reads
      `session.usage.estimatesThisMonth`, which throws (None) when the session has no usage. */
  function NextUsageAsWritten(usage: Option<Json>, numText: real -> string): (r: Option<Json>)
    ensures r.None? <==> usage.None? || usage == Some(JNull)
  {
    if usage.None? || usage == Some(JNull) then None
    else Some(JObj(SpreadFields(usage.value)["estimatesThisMonth" :=
      Incremented(Member(usage, "estimatesThisMonth").Value(), numText)]))
  }

  /** A session that was not over quota because it had no usage is stored, then fails: a freshly
      created session has none. */
  lemma NewSessionSaveFails(toNumber: string -> JsNumber, numText: real -> string)
    ensures QuotaRefusal(Some(map["subscriptionActive" := JBool(false)]), toNumber, numText).None?
    ensures NextUsageAsWritten(UsageOf(Some(map["subscriptionActive" := JBool(false)])), numText).None?
  {
  }

  /** The usage written back when a missing (or `null`) usage counts as empty, as the guard before it
      intends. */
  function NextUsage(usage: Option<Json>, numText: real -> string): (r: Json)
    ensures r.JObj? && "estimatesThisMonth" in r.fields
    ensures usage.None? ==> r == JObj(map["estimatesThisMonth" := JNum(1.0)])
    ensures forall k :: usage.Some? && k in SpreadFields(usage.value) && k != "estimatesThisMonth" ==>
      k in r.fields && r.fields[k] == SpreadFields(usage.value)[k]
  {
    var base := if usage.Some? then SpreadFields(usage.value) else map[];
    var count := if usage.Some? && usage.value != JNull then Member(usage, "estimatesThisMonth").Value() else None;
    JObj(base["estimatesThisMonth" := Incremented(count, numText)])
  }

  /** Where the code does not throw, the corrected counter is the one written. */
  lemma NextUsageAgrees(usage: Option<Json>, numText: real -> string)
    requires NextUsageAsWritten(usage, numText).Some?
    ensures NextUsageAsWritten(usage, numText) == Some(NextUsage(usage, numText))
  {
  }

  /** A numeric count goes up by exactly one, a missing one becomes 1; other usage fields are kept. */
  lemma SaveCountsOne(usage: map<string, Json>, numText: real -> string)
    ensures var r := NextUsage(Some(JObj(usage)), numText).fields;
      "estimatesThisMonth" in r
      && ("estimatesThisMonth" in usage && usage["estimatesThisMonth"].JNum? ==>
            r["estimatesThisMonth"] == JNum(usage["estimatesThisMonth"].n + 1.0))
      && ("estimatesThisMonth" !in usage ==> r["estimatesThisMonth"] == JNum(1.0))
      && forall k :: k in usage && k != "estimatesThisMonth" ==> k in r && r[k] == usage[k]
  {
  }

  // ---------------------------------------------------------------------------------------------
  // History pages

  /** A page of history: the listed documents and the last document, the next cursor (None for `null`). */
  datatype Page = Page(items: seq<Json>, lastDoc: Option<EstimateDoc>)

  function PositionOf(s: seq<EstimateDoc>, d: EstimateDoc): (r: Option<nat>)
    ensures r.Some? ==> r.value < |s| && s[r.value] == d
    ensures r.None? ==> d !in s
    decreases |s|
  {
    if s == [] then None
    else if s[0] == d then Some(0)
    else match PositionOf(s[1..], d)
      case None => None
      case Some(i) => Some(i + 1)
  }

  /** `startAfter(lastDoc)`: where the page starts in the ordering — at the beginning without a
      cursor, or just past the cursor. Firestore positions the cursor by its `createdAt` value, so a
      cursor document that is no longer among them would still start a page; here that case is
      abstracted to an empty page (past the end). */
  function Start(ordered: seq<EstimateDoc>, cursor: Option<EstimateDoc>): (from: nat)
    ensures from <= |ordered|
    ensures cursor.None? ==> from == 0
    ensures cursor.Some? && cursor.value in ordered ==> from >= 1 && ordered[from - 1] == cursor.value
  {
    if cursor.None? then 0
    else match PositionOf(ordered, cursor.value)
      case None => |ordered|
      case Some(i) => i + 1
  }

  function Newest(docs: seq<EstimateDoc>, uid: string, time: Option<Json> -> int): seq<EstimateDoc> {
    SortNewestFirst(OwnedBy(docs, uid), time)
  }

  /** `startAfter(cursor)` and `limit(20)` over an ordered list. */
  function Window(sorted: seq<EstimateDoc>, cursor: Option<EstimateDoc>): (r: seq<EstimateDoc>)
    ensures |r| <= PageSize
  {
    var from := Start(sorted, cursor);
    sorted[from..if |sorted| - from <= PageSize then |sorted| else from + PageSize]
  }

  /** The page's documents: the user's, newest first, after the cursor, at most twenty. */
  function PageDocs(docs: seq<EstimateDoc>, uid: string, cursor: Option<EstimateDoc>, time: Option<Json> -> int): (r: seq<EstimateDoc>)
    ensures |r| <= PageSize
  {
    Window(Newest(docs, uid, time), cursor)
  }

  /** `getHistory(lastDoc)`: an empty page without a user or when the read fails. */
  function HistoryPage(docs: seq<EstimateDoc>, user: Option<User>, cursor: Option<EstimateDoc>, readOk: bool,
                       time: Option<Json> -> int): (p: Page)
    ensures |p.items| <= PageSize
    ensures p.lastDoc.Some? <==> p.items != []
    ensures user.None? || !readOk ==> p == Page([], None)
    ensures user.Some? && readOk ==> p.items == ListAll(PageDocs(docs, user.value.uid, cursor, time))
    ensures user.Some? && readOk && p.lastDoc.Some? ==> (var page := PageDocs(docs, user.value.uid, cursor, time);
      page != [] && p.lastDoc.value == page[|page| - 1])
  {
    if user.None? || !readOk then Page([], None)
    else
      var page := PageDocs(docs, user.value.uid, cursor, time);
      Page(ListAll(page), if page == [] then None else Some(page[|page| - 1]))
  }

  lemma {:induction false} SliceNewestFirst(s: seq<EstimateDoc>, from: nat, to: nat, time: Option<Json> -> int)
    requires from <= to <= |s| && NewestFirst(s, time)
    ensures NewestFirst(s[from..to], time)
  {
    var t := s[from..to];
    forall i, j | 0 <= i < j < |t| ensures time(Created(t[i])) >= time(Created(t[j])) {
      assert t[i] == s[from + i] && t[j] == s[from + j];
    }
  }

  /** Owned by the user and drawn from `docs`. */
  predicate UsersDocs(s: seq<EstimateDoc>, docs: seq<EstimateDoc>, uid: string) {
    forall k :: 0 <= k < |s| ==> s[k] in docs && "userId" in s[k].data && s[k].data["userId"] == JStr(uid)
  }

  lemma {:induction false} SliceUsersDocs(s: seq<EstimateDoc>, from: nat, to: nat, docs: seq<EstimateDoc>, uid: string)
    requires from <= to <= |s| && UsersDocs(s, docs, uid)
    ensures UsersDocs(s[from..to], docs, uid)
  {
    var t := s[from..to];
    forall k | 0 <= k < |t| ensures t[k] in docs && "userId" in t[k].data && t[k].data["userId"] == JStr(uid) {
      assert t[k] == s[from + k];
    }
  }

  /** The user's documents, newest first, are the user's and drawn from `docs`. */
  lemma NewestIsUsers(docs: seq<EstimateDoc>, uid: string, time: Option<Json> -> int)
    ensures NewestFirst(Newest(docs, uid, time), time)
    ensures UsersDocs(Newest(docs, uid, time), docs, uid)
  {
    HistoryIsUsersNewestFirst(docs, uid, time);
  }

  /** A page holds only the user's documents, newest first. */
  lemma PageIsUsersNewestFirst(docs: seq<EstimateDoc>, uid: string, cursor: Option<EstimateDoc>, time: Option<Json> -> int)
    ensures NewestFirst(PageDocs(docs, uid, cursor, time), time)
    ensures UsersDocs(PageDocs(docs, uid, cursor, time), docs, uid)
  {
    var sorted := Newest(docs, uid, time);
    NewestIsUsers(docs, uid, time);
    var from := Start(sorted, cursor);
    var to := if |sorted| - from <= PageSize then |sorted| else from + PageSize;
    assert Window(sorted, cursor) == sorted[from..to];
    SliceNewestFirst(sorted, from, to, time);
    SliceUsersDocs(sorted, from, to, docs, uid);
  }

  /** The first page is the start of the user's newest-first history, and the next page starts right
      after the last document of a page. */
  lemma PagesFollowOn(docs: seq<EstimateDoc>, uid: string, cursor: EstimateDoc, time: Option<Json> -> int)
    ensures var sorted := Newest(docs, uid, time);
      PageDocs(docs, uid, None, time) == sorted[..if |sorted| <= PageSize then |sorted| else PageSize]
    ensures var sorted := Newest(docs, uid, time);
      cursor in sorted ==> exists i :: 0 <= i < |sorted| && sorted[i] == cursor && PageDocs(docs, uid, Some(cursor), time) <= sorted[i + 1..]
  {
    WindowFollowsOn(Newest(docs, uid, time), cursor);
  }

  /** The window without a cursor is the list's start; with a cursor in the list, it lies after it. */
  lemma WindowFollowsOn(sorted: seq<EstimateDoc>, cursor: EstimateDoc)
    ensures Window(sorted, None) == sorted[..if |sorted| <= PageSize then |sorted| else PageSize]
    ensures cursor in sorted ==> exists i :: 0 <= i < |sorted| && sorted[i] == cursor && Window(sorted, Some(cursor)) <= sorted[i + 1..]
  {
    if cursor in sorted {
      var from := Start(sorted, Some(cursor));
      assert sorted[from - 1] == cursor;
      assert Window(sorted, Some(cursor)) <= sorted[from..];
    }
  }

  /** The last document of a non-empty window is in the list. */
  lemma WindowLastIn(sorted: seq<EstimateDoc>, cursor: Option<EstimateDoc>)
    ensures var w := Window(sorted, cursor); w != [] ==> w[|w| - 1] in sorted
  {
    var from := Start(sorted, cursor);
    var to := if |sorted| - from <= PageSize then |sorted| else from + PageSize;
    assert Window(sorted, cursor) == sorted[from..to];
    if from < to {
      assert sorted[from..to][to - from - 1] == sorted[to - 1];
    }
  }

  /** Asking for the page after a page's `lastDoc` gives documents that come after that document in the
      user's newest-first history. */
  lemma NextPageAfterLastDoc(docs: seq<EstimateDoc>, user: User, cursor: Option<EstimateDoc>, time: Option<Json> -> int)
    ensures var p := HistoryPage(docs, Some(user), cursor, true, time);
      var sorted := Newest(docs, user.uid, time);
      p.lastDoc.Some? ==>
        exists i :: (0 <= i < |sorted| && sorted[i] == p.lastDoc.value && PageDocs(docs, user.uid, p.lastDoc, time) <= sorted[i + 1..])
  {
    var p := HistoryPage(docs, Some(user), cursor, true, time);
    if p.lastDoc.Some? {
      var sorted := Newest(docs, user.uid, time);
      WindowLastIn(sorted, cursor);
      WindowFollowsOn(sorted, p.lastDoc.value);
    }
  }

  // ---------------------------------------------------------------------------------------------
  // Leads and appointments

  /** A calendar time: a day number and minutes after midnight. */
  datatype Stamp = Stamp(day: int, minute: int)

  datatype Appointment = Appointment(title: string, start: Stamp, end: Stamp, attendees: seq<string>, kind: string,
                                     leadId: Json, userId: string, createdAt: string)

  /** The walkthrough booked for a hot lead: tomorrow 10:00 to 11:00, for the user's e-mail. */
  function Walkthrough(lead: map<string, Json>, leadId: Json, user: User, today: int, now: string, numText: real -> string): (a: Appointment)
    ensures a.start == Stamp(today + 1, WalkthroughStart) && a.end == Stamp(today + 1, WalkthroughEnd)
    ensures a.kind == "walkthrough" && a.leadId == leadId && a.userId == user.uid
    ensures |a.attendees| == 1 && (user.email.Some? && user.email.value != "" <==> a.attendees[0] != FallbackAttendee || user.email == Some(FallbackAttendee))
    ensures var summary := if "summary" in lead then Some(lead["summary"]) else None;
      Truthy(summary) ==> a.title == "Walkthrough - " + TemplateText(summary, numText)
    ensures var summary := if "summary" in lead then Some(lead["summary"]) else None;
      !Truthy(summary) ==> a.title == "Walkthrough - " + FallbackSummary
  {
    var summary := if "summary" in lead then Some(lead["summary"]) else None;
    Appointment("Walkthrough - " + (if Truthy(summary) then TemplateText(summary, numText) else FallbackSummary),
      Stamp(today + 1, WalkthroughStart), Stamp(today + 1, WalkthroughEnd),
      [if user.email.Some? && user.email.value != "" then user.email.value else FallbackAttendee],
      "walkthrough", leadId, user.uid, now)
  }

  /** `getAppointmentsForLead`: the ids of the user's appointments for the lead. */
  function AppointmentsFor(apps: map<string, Appointment>, uid: string, leadId: Json): set<string> {
    set id | id in apps && apps[id].userId == uid && apps[id].leadId == leadId
  }

  /** `lead.id || generatedId`; None when a truthy id is not a string (no document path can be made). */
  function LeadId(lead: map<string, Json>, generatedId: string): (r: Option<string>)
    ensures "id" !in lead ==> r == Some(generatedId)
    ensures "id" in lead && lead["id"].JStr? && lead["id"].s != "" ==> r == Some(lead["id"].s)
  {
    var id := if "id" in lead then Some(lead["id"]) else None;
    if !Truthy(id) then Some(generatedId)
    else if id.value.JStr? then Some(id.value.s)
    else None
  }

  /** The leads after the merge write of `saveLead`: the lead's document keeps its other fields, takes
      the lead's, and is stamped with the id, the user and the time; no other lead changes. */
  function MergeLead(leads: map<string, map<string, Json>>, id: string, lead: map<string, Json>, uid: string, now: string)
    : (r: map<string, map<string, Json>>)
    ensures r.Keys == leads.Keys + {id}
    ensures forall k :: k in leads && k != id ==> r[k] == leads[k]
    ensures "id" in r[id] && r[id]["id"] == JStr(id)
    ensures "userId" in r[id] && r[id]["userId"] == JStr(uid)
    ensures "updatedAt" in r[id] && r[id]["updatedAt"] == JStr(now)
    ensures forall f :: f in lead && f != "id" && f != "userId" && f != "updatedAt" ==> f in r[id] && r[id][f] == lead[f]
    ensures forall f :: id in leads && f in leads[id] && f !in lead && f != "id" && f != "userId" && f != "updatedAt" ==>
      f in r[id] && r[id][f] == leads[id][f]
  {
    var current := if id in leads then leads[id] else map[];
    leads[id := current + lead["id" := JStr(id)]["userId" := JStr(uid)]["updatedAt" := JStr(now)]]
  }

  /** Why a call failed: a message it throws, or a runtime error (None). */
  datatype Failure = Thrown(message: Option<string>)

  class Workspace {
    var users: map<string, map<string, Json>>
    var estimates: seq<EstimateDoc>
    var leads: map<string, map<string, Json>>
    var appointments: map<string, Appointment>
    var calendars: map<string, map<string, Json>>
    var waitlist: seq<map<string, Json>>

    constructor ()
      ensures users == map[] && estimates == [] && leads == map[] && appointments == map[]
      ensures calendars == map[] && waitlist == []
    {
      users := map[];
      estimates := [];
      leads := map[];
      appointments := map[];
      calendars := map[];
      waitlist := [];
    }

    /** `getSession`: the user's document, or None when absent or when the read fails. */
    function SessionOf(user: User, readOk: bool): Option<map<string, Json>>
      reads this
    {
      if readOk && user.uid in users then Some(users[user.uid]) else None
    }

    /** `saveEstimate`, as the code stands:
        - without a user, or over quota, it throws and writes nothing;
        - otherwise it stores the estimate stamped with the user and time;
        - with a session it then writes back the usage with one more estimate; a session without usage
          throws at that point, after the estimate was stored;
        - it returns the first history page. */
    method SaveEstimate(user: Option<User>, estimate: map<string, Json>, newId: string, now: string,
                        readOk: bool, listOk: bool, time: Option<Json> -> int, toNumber: string -> JsNumber,
                        numText: real -> string)
      returns (r: Result<Page, Failure>)
      modifies this
      ensures user.None? ==> r == Err(Thrown(Some(NotAuthenticated))) && estimates == old(estimates) && users == old(users)
      ensures user.Some? && QuotaRefusal(old(SessionOf(user.value, readOk)), toNumber, numText).Some? ==>
        r == Err(Thrown(QuotaRefusal(old(SessionOf(user.value, readOk)), toNumber, numText)))
        && estimates == old(estimates) && users == old(users)
      ensures user.Some? && QuotaRefusal(old(SessionOf(user.value, readOk)), toNumber, numText).None? ==>
        estimates == old(estimates) + [EstimateDoc(newId, estimate["userId" := JStr(user.value.uid)]["createdAt" := JStr(now)])]
      ensures user.Some? && QuotaRefusal(old(SessionOf(user.value, readOk)), toNumber, numText).None? ==>
        var session := old(SessionOf(user.value, readOk));
        var next := if session.Some? then NextUsageAsWritten(UsageOf(session), numText) else None;
        (session.None? ==> users == old(users) && r == Ok(HistoryPage(estimates, user, None, listOk, time)))
        && (session.Some? && next.None? ==> users == old(users) && r == Err(Thrown(None)))
        && (session.Some? && next.Some? ==>
              users == old(users)[user.value.uid := session.value["usage" := next.value]["updatedAt" := JStr(now)]]
              && r == Ok(HistoryPage(estimates, user, None, listOk, time)))
      ensures leads == old(leads) && appointments == old(appointments) && calendars == old(calendars) && waitlist == old(waitlist)
    {
      if user.None? {
        return Err(Thrown(Some(NotAuthenticated)));
      }
      var u := user.value;
      var session := SessionOf(u, readOk);
      var refusal := QuotaRefusal(session, toNumber, numText);
      if refusal.Some? {
        return Err(Thrown(refusal));
      }
      estimates := estimates + [EstimateDoc(newId, estimate["userId" := JStr(u.uid)]["createdAt" := JStr(now)])];
      if session.Some? {
        var newUsage := NextUsageAsWritten(UsageOf(session), numText);
        if newUsage.None? {
          return Err(Thrown(None));
        }
        users := users[u.uid := session.value["usage" := newUsage.value]["updatedAt" := JStr(now)]];
      }
      r := Ok(HistoryPage(estimates, user, None, listOk, time));
    }

    /** `saveLead`: throws without a user, or when a truthy id is not a string; otherwise merges the
        lead, its id, the user and the time into the lead's document. It answers nothing. */
    method SaveLead(user: Option<User>, lead: map<string, Json>, generatedId: string, now: string)
      returns (r: Result<(), Failure>)
      modifies this
      ensures user.None? ==> r == Err(Thrown(Some(NotAuthenticated))) && leads == old(leads)
      ensures user.Some? && LeadId(lead, generatedId).None? ==> r == Err(Thrown(None)) && leads == old(leads)
      ensures user.Some? && LeadId(lead, generatedId).Some? ==>
        r == Ok(()) && leads == MergeLead(old(leads), LeadId(lead, generatedId).value, lead, user.value.uid, now)
      ensures users == old(users) && estimates == old(estimates) && appointments == old(appointments)
      ensures calendars == old(calendars) && waitlist == old(waitlist)
    {
      if user.None? {
        return Err(Thrown(Some(NotAuthenticated)));
      }
      var id := LeadId(lead, generatedId);
      if id.None? {
        return Err(Thrown(None));
      }
      leads := MergeLead(leads, id.value, lead, user.value.uid, now);
      r := Ok(());
    }

    /** Whether `updateLead` goes on to book: the lead is hot and the user's calendar asks for
        automatic booking. */
    predicate AutoBookAsked(user: User, lead: map<string, Json>, readOk: bool)
      reads this
    {
      "status" in lead && lead["status"] == JStr(HotStatus)
      && readOk && user.uid in calendars
      && Truthy(Member(Some(JObj(calendars[user.uid])), "autoBookHotLeads").Value())
    }

    /** Whether `updateLead` books a walkthrough for the lead: booking is asked for, the lead has an id
        and no appointment exists for it yet. */
    predicate BooksWalkthrough(user: User, lead: map<string, Json>, readOk: bool)
      reads this
    {
      AutoBookAsked(user, lead, readOk) && "id" in lead && AppointmentsFor(appointments, user.uid, lead["id"]) == {}
    }

    /** `updateLead`: saves the lead, then, when booking is asked for, looks up the lead's appointments
        and books a walkthrough under a fresh appointment id when there are none. A lead without an id
        reaches the lookup with `undefined`, which the query refuses, and a lookup that fails (`lookupOk`
        false) is not caught either: both throw after the save. */
    method UpdateLead(user: Option<User>, lead: map<string, Json>, generatedId: string, now: string, readOk: bool,
                      lookupOk: bool, appointmentId: string, today: int, numText: real -> string)
      returns (r: Result<(), Failure>)
      modifies this
      ensures user.None? ==> r == Err(Thrown(Some(NotAuthenticated))) && leads == old(leads) && appointments == old(appointments)
      ensures user.Some? && LeadId(lead, generatedId).None? ==>
        r == Err(Thrown(None)) && leads == old(leads) && appointments == old(appointments)
      ensures user.Some? && LeadId(lead, generatedId).Some? ==>
        leads == MergeLead(old(leads), LeadId(lead, generatedId).value, lead, user.value.uid, now)
      ensures (user.Some? && LeadId(lead, generatedId).Some? && old(AutoBookAsked(user.value, lead, readOk))
        && ("id" !in lead || !lookupOk)) ==> r == Err(Thrown(None)) && appointments == old(appointments)
      ensures user.Some? && LeadId(lead, generatedId).Some? && old(BooksWalkthrough(user.value, lead, readOk)) && lookupOk ==>
        r == Ok(()) && appointments == old(appointments)[appointmentId := Walkthrough(lead, lead["id"], user.value, today, now, numText)]
      ensures user.Some? && LeadId(lead, generatedId).Some? ==>
        (!old(AutoBookAsked(user.value, lead, readOk) && ("id" !in lead || !lookupOk))
           && !old(BooksWalkthrough(user.value, lead, readOk)) ==>
           r == Ok(()) && appointments == old(appointments))
      ensures "id" in lead && user.Some? ==>
        appointments == old(appointments) || |AppointmentsFor(appointments, user.value.uid, lead["id"])| <= 1
      ensures users == old(users) && estimates == old(estimates) && calendars == old(calendars) && waitlist == old(waitlist)
    {
      if user.None? {
        return Err(Thrown(Some(NotAuthenticated)));
      }
      var u := user.value;
      var asked := AutoBookAsked(u, lead, readOk);
      var books := BooksWalkthrough(u, lead, readOk);
      var saved := SaveLead(user, lead, generatedId, now);
      if saved.Err? {
        return Err(saved.error);
      }
      if asked && ("id" !in lead || !lookupOk) {
        return Err(Thrown(None));
      }
      if books {
        var leadId := lead["id"];
        appointments := appointments[appointmentId := Walkthrough(lead, leadId, u, today, now, numText)];
        var booked := AppointmentsFor(appointments, u.uid, leadId);
        assert booked <= {appointmentId};
        assert booked == {appointmentId} || booked == {};
      }
      r := Ok(());
    }

    /** `submitWaitlist`: stores the entry as pending, or throws the fixed message when the write fails. */
    method SubmitWaitlist(data: map<string, Json>, now: string, writeOk: bool) returns (r: Result<(), string>)
      modifies this
      ensures writeOk ==> r.Ok? && waitlist == old(waitlist) + [data["createdAt" := JStr(now)]["status" := JStr("pending")]]
      ensures !writeOk ==> r == Err(WaitlistFailure) && waitlist == old(waitlist)
      ensures users == old(users) && estimates == old(estimates) && leads == old(leads)
      ensures appointments == old(appointments) && calendars == old(calendars)
    {
      if !writeOk {
        return Err(WaitlistFailure);
      }
      waitlist := waitlist + [data["createdAt" := JStr(now)]["status" := JStr("pending")]];
      r := Ok(());
    }
  }
}
