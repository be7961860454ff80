/**
 * The cloud persistence of the signed-in app (src/dbService.ts). There is one user document per
 * uid, merged on save, and a collection of estimate documents. The history holds the current
 * user's estimates, newest first. The signed-in user (None when signed out), clock values and the
 * success of each read are parameters.
 */
module UserStore {
  import opened Wrappers
  import opened Json

  /** A stored estimate document: its generated id and its fields. */
  datatype EstimateDoc = EstimateDoc(docId: string, data: map<string, Json>)

  const NotAuthenticated: string := "User not authenticated"

  /** `where("userId", "==", uid)`, in stored order. */
  function OwnedBy(docs: seq<EstimateDoc>, uid: string): (r: seq<EstimateDoc>)
    ensures |r| <= |docs|
    ensures forall k :: 0 <= k < |r| ==> r[k] in docs && "userId" in r[k].data && r[k].data["userId"] == JStr(uid)
    ensures forall d :: d in docs && "userId" in d.data && d.data["userId"] == JStr(uid) ==> d in r
    decreases |docs|
  {
    if docs == [] then []
    else
      var init := OwnedBy(docs[..|docs| - 1], uid);
      var d := docs[|docs| - 1];
      assert forall e :: e in docs ==> e in docs[..|docs| - 1] || e == d;
      if "userId" in d.data && d.data["userId"] == JStr(uid) then init + [d] else init
  }

  /** `{ id: doc.id, ...doc.data() }`: the document's fields over its id (a stored `id` field wins). */
  function Listed(d: EstimateDoc): (j: Json)
    ensures j.JObj? && "id" in j.fields
    ensures "id" !in d.data ==> j.fields["id"] == JStr(d.docId)
    ensures forall k :: k in d.data ==> k in j.fields && j.fields[k] == d.data[k]
  {
    JObj(map["id" := JStr(d.docId)] + d.data)
  }

  /** Newest first: the sort key, `new Date(createdAt).getTime()`, is the parameter `time`. */
  predicate NewestFirst(docs: seq<EstimateDoc>, time: Option<Json> -> int) {
    forall i, j :: 0 <= i < j < |docs| ==> time(Created(docs[i])) >= time(Created(docs[j]))
  }

  function Created(d: EstimateDoc): Option<Json> {
    if "createdAt" in d.data then Some(d.data["createdAt"]) else None
  }

  /** Places `x` after every document at least as new (the sort is stable). */
  function InsertByTime(x: EstimateDoc, s: seq<EstimateDoc>, time: Option<Json> -> int): (r: seq<EstimateDoc>)
    requires NewestFirst(s, time)
    ensures NewestFirst(r, time) && multiset(r) == multiset(s) + multiset{x}
    decreases |s|
  {
    if s == [] then [x]
    else
      var last := s[|s| - 1];
      if time(Created(last)) >= time(Created(x)) then s + [x]
      else
        var init := s[..|s| - 1];
        assert s == init + [last];
        var r := InsertByTime(x, init, time);
        AppendOlder(x, init, last, r, time);
        r + [last]
  }

  lemma AppendOlder(x: EstimateDoc, init: seq<EstimateDoc>, last: EstimateDoc, r: seq<EstimateDoc>,
                    time: Option<Json> -> int)
    requires NewestFirst(init + [last], time) && time(Created(last)) < time(Created(x))
    requires NewestFirst(r, time) && multiset(r) == multiset(init) + multiset{x}
    ensures NewestFirst(r + [last], time)
    ensures multiset(r + [last]) == multiset(init + [last]) + multiset{x}
  {
    forall k | 0 <= k < |r| ensures time(Created(r[k])) >= time(Created(last)) {
      assert r[k] in multiset(r);
      if r[k] != x {
        assert r[k] in multiset(init);
        var m :| 0 <= m < |init| && init[m] == r[k];
        assert (init + [last])[m] == init[m] && (init + [last])[|init|] == last;
      }
    }
  }

  /** The `sort` of the history: newest first, stable. */
  function SortNewestFirst(docs: seq<EstimateDoc>, time: Option<Json> -> int): (r: seq<EstimateDoc>)
    ensures NewestFirst(r, time) && multiset(r) == multiset(docs)
    decreases |docs|
  {
    if docs == [] then []
    else
      assert docs == docs[..|docs| - 1] + [docs[|docs| - 1]];
      InsertByTime(docs[|docs| - 1], SortNewestFirst(docs[..|docs| - 1], time), time)
  }

  function ListAll(docs: seq<EstimateDoc>): (r: seq<Json>)
    ensures |r| == |docs| && forall k :: 0 <= k < |docs| ==> r[k] == Listed(docs[k])
  {
    seq(|docs|, k requires 0 <= k < |docs| => Listed(docs[k]))
  }

  /** `getHistory`: nothing without a user or when the read fails; otherwise the user's documents,
      newest first. */
  function History(docs: seq<EstimateDoc>, user: Option<string>, readOk: bool, time: Option<Json> -> int): (r: seq<Json>)
    ensures user.None? || !readOk ==> r == []
    ensures user.Some? && readOk ==> |r| == |OwnedBy(docs, user.value)|
  {
    if user.None? || !readOk then []
    else
      HistoryIsUsersNewestFirst(docs, user.value, time);
      assert |multiset(SortNewestFirst(OwnedBy(docs, user.value), time))| == |multiset(OwnedBy(docs, user.value))|;
      ListAll(SortNewestFirst(OwnedBy(docs, user.value), time))
  }

  /** The history lists the user's documents and no other, each as often as stored, newest first. */
  lemma HistoryIsUsersNewestFirst(docs: seq<EstimateDoc>, uid: string, time: Option<Json> -> int)
    ensures var sorted := SortNewestFirst(OwnedBy(docs, uid), time);
      NewestFirst(sorted, time) && multiset(sorted) == multiset(OwnedBy(docs, uid))
      && forall k :: 0 <= k < |sorted| ==> sorted[k] in docs && "userId" in sorted[k].data && sorted[k].data["userId"] == JStr(uid)
  {
    var owned := OwnedBy(docs, uid);
    var sorted := SortNewestFirst(owned, time);
    forall k | 0 <= k < |sorted| ensures sorted[k] in owned {
      assert sorted[k] in multiset(sorted);
    }
  }

  /** `docs.filter(d => d.docId !== id)`: `deleteDoc` on that id. */
  function Deleted(docs: seq<EstimateDoc>, id: string): (r: seq<EstimateDoc>)
    ensures forall d :: d in r <==> d in docs && d.docId != id
    decreases |docs|
  {
    if docs == [] then []
    else
      var init := Deleted(docs[..|docs| - 1], id);
      var d := docs[|docs| - 1];
      assert forall e :: e in docs <==> e in docs[..|docs| - 1] || e == d;
      if d.docId != id then init + [d] else init
  }

  class CloudStore {
    /** The `users` collection: the session fields of each uid. */
    var users: map<string, map<string, Json>>
    /** The `estimates` collection, in stored order. */
    var estimates: seq<EstimateDoc>

    constructor ()
      ensures users == map[] && estimates == []
    {
      users := map[];
      estimates := [];
    }

    /** `saveSession`: without a user nothing is written; otherwise the session and `updatedAt` are
        merged into the user's document. */
    method SaveSession(user: Option<string>, session: map<string, Json>, now: string)
      modifies this
      ensures user.None? ==> users == old(users)
      ensures user.Some? ==> users == old(users)[user.value :=
        (if user.value in old(users) then old(users)[user.value] else map[]) + session + map["updatedAt" := JStr(now)]]
      ensures estimates == old(estimates)
    {
      if user.None? {
        return;
      }
      var uid := user.value;
      var current := if uid in users then users[uid] else map[];
      users := users[uid := current + session + map["updatedAt" := JStr(now)]];
    }

    /** `getSession`: the user's document, or `null` without a user, when absent or when the read fails. */
    method GetSession(user: Option<string>, readOk: bool) returns (r: Option<map<string, Json>>)
      ensures r.Some? <==> user.Some? && readOk && user.value in users
      ensures r.Some? ==> r.value == users[user.value]
    {
      if user.None? || !readOk || user.value !in users {
        return None;
      }
      r := Some(users[user.value]);
    }

    /** `saveEstimate`: throws without a user, writing nothing; otherwise stores the estimate's fields
        with `userId` and `createdAt` and returns the refreshed history. */
    method SaveEstimate(user: Option<string>, estimate: map<string, Json>, newId: string, now: string,
                        readOk: bool, time: Option<Json> -> int) returns (r: Result<seq<Json>, string>)
      modifies this
      ensures user.None? ==> r == Err(NotAuthenticated) && estimates == old(estimates)
      ensures user.Some? ==> estimates == old(estimates) + [EstimateDoc(newId,
        estimate["userId" := JStr(user.value)]["createdAt" := JStr(now)])]
      ensures user.Some? ==> r == Ok(History(estimates, user, readOk, time))
      ensures users == old(users)
    {
      if user.None? {
        return Err(NotAuthenticated);
      }
      var record := estimate["userId" := JStr(user.value)]["createdAt" := JStr(now)];
      estimates := estimates + [EstimateDoc(newId, record)];
      r := Ok(History(estimates, user, readOk, time));
    }

    /** `deleteEstimate`: removes the document with that id, then returns the refreshed history. */
    method DeleteEstimate(user: Option<string>, id: string, readOk: bool, time: Option<Json> -> int) returns (r: seq<Json>)
      modifies this
      ensures estimates == Deleted(old(estimates), id) && users == old(users)
      ensures r == History(estimates, user, readOk, time)
    {
      estimates := Deleted(estimates, id);
      r := History(estimates, user, readOk, time);
    }
  }

  /** A saved session reads back: the document holds every saved field. */
  lemma SessionReadsBack(users: map<string, map<string, Json>>, uid: string, session: map<string, Json>, now: string, key: string)
    requires key in session && key != "updatedAt"
    ensures var merged := (if uid in users then users[uid] else map[]) + session + map["updatedAt" := JStr(now)];
      key in merged && merged[key] == session[key]
  {
  }

  /** A saved estimate is listed in its owner's history, stamped with the owner's id. */
  lemma SavedEstimateListed(docs: seq<EstimateDoc>, uid: string, d: EstimateDoc, time: Option<Json> -> int)
    requires "userId" in d.data && d.data["userId"] == JStr(uid)
    ensures d in SortNewestFirst(OwnedBy(docs + [d], uid), time)
  {
    var owned := OwnedBy(docs + [d], uid);
    assert d in docs + [d];
    assert d in multiset(owned);
  }
}
