/**
 * The browser-storage persistence of the first app generation (dbService.ts). Two storage keys
 * hold the session and the history list. Each list operation reads the list, builds a new one and
 * stores it back. Values are kept as the JSON they are stored as; a missing key is None.
 */
module LocalStore {
  import opened Wrappers
  import opened Json

  /** `h.id !== id` for every entry; None when an entry is `null` (reading `.id` throws). */
  function WithoutId(history: seq<Json>, id: Json): (r: Option<seq<Json>>)
    ensures r.None? <==> JNull in history
    ensures r.Some? ==> |r.value| <= |history|
    ensures r.Some? ==> forall k :: 0 <= k < |r.value| ==> r.value[k] in history && !HasId(r.value[k], id)
    ensures r.Some? ==> forall k :: 0 <= k < |history| && !HasId(history[k], id) ==> history[k] in r.value
    decreases |history|
  {
    if history == [] then Some([])
    else
      match WithoutId(history[1..], id)
      case None => None
      case Some(rest) =>
        if history[0] == JNull then None
        else if Member(Some(history[0]), "id").Value() == Some(id) then Some(rest)
        else Some([history[0]] + rest)
  }

  /** The filter keeps list order: filtering a concatenation filters each part and joins the results,
      and fails when either part holds a `null`. */
  lemma {:induction false} WithoutIdAppend(a: seq<Json>, b: seq<Json>, id: Json)
    ensures WithoutId(a + b, id)
      == if WithoutId(a, id).Some? && WithoutId(b, id).Some? then Some(WithoutId(a, id).value + WithoutId(b, id).value) else None
  {
    if a == [] {
      assert a + b == b;
      if WithoutId(b, id).Some? {
        assert [] + WithoutId(b, id).value == WithoutId(b, id).value;
      }
    } else {
      assert (a + b)[1..] == a[1..] + b;
      assert (a + b)[0] == a[0];
      WithoutIdAppend(a[1..], b, id);
      var rest, tail := WithoutId(a[1..], id), WithoutId(b, id);
      if rest.Some? && tail.Some? && a[0] != JNull && Member(Some(a[0]), "id").Value() != Some(id) {
        assert [a[0]] + (rest.value + tail.value) == ([a[0]] + rest.value) + tail.value;
      }
    }
  }

  /** An entry carries the id. */
  predicate HasId(h: Json, id: Json) {
    h != JNull && Member(Some(h), "id").Value() == Some(id)
  }

  /** Entries without the id are kept, in their order. */
  lemma {:induction false} WithoutAbsentId(history: seq<Json>, id: Json)
    requires JNull !in history
    requires forall k :: 0 <= k < |history| ==> !HasId(history[k], id)
    ensures WithoutId(history, id) == Some(history)
    decreases |history|
  {
    if history != [] {
      WithoutAbsentId(history[1..], id);
      assert !HasId(history[0], id);
      assert [history[0]] + history[1..] == history;
    }
  }

  class Storage {
    /** The session key's value. */
    var sessionSlot: Option<Json>
    /** The history key's value. */
    var historySlot: Option<seq<Json>>

    constructor ()
      ensures sessionSlot.None? && historySlot.None?
    {
      sessionSlot := None;
      historySlot := None;
    }

    /** `getHistory`: the stored list, or the empty list when nothing is stored. */
    function History(): seq<Json>
      reads this
    {
      if historySlot.Some? then historySlot.value else []
    }

    method SaveSession(session: Json)
      modifies this
      ensures sessionSlot == Some(session) && historySlot == old(historySlot)
    {
      sessionSlot := Some(session);
    }

    /** `getSession`: the stored session, or `null` (None) when the key is absent. */
    method GetSession() returns (r: Option<Json>)
      ensures r == sessionSlot
    {
      r := sessionSlot;
    }

    method ClearSession()
      modifies this
      ensures sessionSlot.None? && historySlot == old(historySlot)
    {
      sessionSlot := None;
    }

    method GetHistory() returns (r: seq<Json>)
      ensures r == History()
    {
      r := History();
    }

    /** Prepends the estimate and stores the new list, which it returns. */
    method SaveEstimate(estimate: Json) returns (updated: seq<Json>)
      modifies this
      ensures updated == [estimate] + old(History())
      ensures historySlot == Some(updated) && sessionSlot == old(sessionSlot)
    {
      var history := GetHistory();
      updated := [estimate] + history;
      historySlot := Some(updated);
    }

    /** Drops every entry with the id and stores the rest, which it returns; when an entry is `null`
        the filter throws and nothing is stored. */
    method DeleteEstimate(id: Json) returns (updated: Option<seq<Json>>)
      modifies this
      ensures updated == WithoutId(old(History()), id)
      ensures updated.Some? ==> historySlot == updated
      ensures updated.None? ==> historySlot == old(historySlot)
      ensures sessionSlot == old(sessionSlot)
    {
      var history := GetHistory();
      updated := WithoutId(history, id);
      if updated.Some? {
        historySlot := updated;
      }
    }
  }

  /** Saving an estimate under an id the history does not use, then deleting that id, gives back the
      history as it was. */
  lemma SaveThenDeleteRestores(history: seq<Json>, estimate: Json, id: Json)
    requires JNull !in history
    requires HasId(estimate, id)
    requires forall k :: 0 <= k < |history| ==> !HasId(history[k], id)
    ensures WithoutId([estimate] + history, id) == Some(history)
  {
    WithoutAbsentId(history, id);
    assert ([estimate] + history)[1..] == history;
  }
}
