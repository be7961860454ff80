/**
 * The leads board (src/components/LeadsDashboard.tsx): three columns by status, the buttons each card
 * offers, and the optimistic status change that rewrites the local list before the change is
 * persisted. A lead is the record the leads collection holds.
 */
module LeadsBoard {
  import opened Wrappers
  import opened Json
  import Voice

  const Hot: string := "Hot"
  const Warm: string := "Warm"
  const Cold: string := "Cold"
  /** The columns, in display order. */
  const Statuses: seq<string> := [Hot, Warm, Cold]

  function Field(lead: map<string, Json>, key: string): Option<Json> {
    if key in lead then Some(lead[key]) else None
  }

  /** `l.status === status`. */
  predicate HasStatus(lead: map<string, Json>, status: string) {
    Field(lead, "status") == Some(JStr(status))
  }

  /** The leads of one column, in list order. */
  function Column(leads: seq<map<string, Json>>, status: string): (r: seq<map<string, Json>>)
    ensures |r| <= |leads|
    ensures forall l :: l in r <==> l in leads && HasStatus(l, status)
  {
    if leads == [] then []
    else
      var n := |leads| - 1;
      Column(leads[..n], status) + (if HasStatus(leads[n], status) then [leads[n]] else [])
  }

  /** A column keeps list order: the column of a concatenation is the columns of the parts, joined. */
  lemma {:induction false} ColumnAppend(a: seq<map<string, Json>>, b: seq<map<string, Json>>, status: string)
    ensures Column(a + b, status) == Column(a, status) + Column(b, status)
    decreases |b|
  {
    if b == [] {
      assert a + b == a;
    } else {
      var n := |b| - 1;
      assert (a + b)[..|a + b| - 1] == a + b[..n];
      assert (a + b)[|a + b| - 1] == b[n];
      ColumnAppend(a, b[..n], status);
    }
  }

  function Shown(leads: seq<map<string, Json>>): nat {
    |Column(leads, Hot)| + |Column(leads, Warm)| + |Column(leads, Cold)|
  }

  function Unsorted(leads: seq<map<string, Json>>): (n: nat) {
    if leads == [] then 0
    else
      var l := leads[|leads| - 1];
      Unsorted(leads[..|leads| - 1]) + (if HasStatus(l, Hot) || HasStatus(l, Warm) || HasStatus(l, Cold) then 0 else 1)
  }

  /** The three columns share no lead and together hold every lead but those with another status. */
  lemma {:induction false} ColumnsPartition(leads: seq<map<string, Json>>)
    ensures Shown(leads) + Unsorted(leads) == |leads|
  {
    if leads != [] {
      ColumnsPartition(leads[..|leads| - 1]);
    }
  }

  /** A lead whose status is none of the three is on no column. */
  lemma OtherStatusHidden(leads: seq<map<string, Json>>, lead: map<string, Json>)
    requires !HasStatus(lead, Hot) && !HasStatus(lead, Warm) && !HasStatus(lead, Cold)
    ensures forall s :: s in Statuses ==> lead !in Column(leads, s)
  {
  }

  /** Leads stored by the voice agent carry "HOT" or "NEW", which no column shows. */
  lemma VoiceLeadsHidden(leads: seq<map<string, Json>>, lead: map<string, Json>)
    requires Voice.AgentLead(lead)
    ensures forall s :: s in Statuses ==> lead !in Column(leads, s)
  {
  }

  datatype Action = MarkHot | MarkCold

  /** The buttons of a card in a column: Mark Hot except on Hot, Mark Cold except on Cold. */
  function Actions(status: string): (r: seq<Action>)
    ensures MarkHot in r <==> status != Hot
    ensures MarkCold in r <==> status != Cold
    ensures |r| >= 1
  {
    (if status != Hot then [MarkHot] else []) + (if status != Cold then [MarkCold] else [])
  }

  /** `{...lead, status}`. */
  function WithStatus(lead: map<string, Json>, status: string): (r: map<string, Json>)
    ensures HasStatus(r, status)
    ensures forall k :: k in lead && k != "status" ==> k in r && r[k] == lead[k]
  {
    lead["status" := JStr(status)]
  }

  /** `l.id === lead.id`; two leads without an id also compare equal. */
  predicate SameId(a: map<string, Json>, b: map<string, Json>) {
    Field(a, "id") == Field(b, "id")
  }

  /** The local list after a status change: every lead with the changed lead's id becomes the changed
      copy, the rest stay as they were. */
  function Replaced(leads: seq<map<string, Json>>, lead: map<string, Json>, status: string): (r: seq<map<string, Json>>)
    ensures |r| == |leads|
    ensures forall k :: 0 <= k < |leads| && SameId(leads[k], lead) ==> r[k] == WithStatus(lead, status)
    ensures forall k :: 0 <= k < |leads| && !SameId(leads[k], lead) ==> r[k] == leads[k]
  {
    seq(|leads|, k requires 0 <= k < |leads| => if SameId(leads[k], lead) then WithStatus(lead, status) else leads[k])
  }

  /** A status change lists the changed lead in the new column, and any other column keeps only leads
      with other ids. */
  lemma ChangeMovesLead(leads: seq<map<string, Json>>, lead: map<string, Json>, status: string, other: string)
    requires lead in leads && other != status
    ensures WithStatus(lead, status) in Column(Replaced(leads, lead, status), status)
    ensures forall l :: l in Column(Replaced(leads, lead, status), other) ==> !SameId(l, lead)
  {
    var r := Replaced(leads, lead, status);
    var k :| 0 <= k < |leads| && leads[k] == lead;
    assert r[k] == WithStatus(lead, status);
    forall l | l in Column(r, other) ensures !SameId(l, lead) {
      var j :| 0 <= j < |r| && r[j] == l;
    }
  }

  /** `handleStatusChange`: the list shown next, computed from the change alone, and the record then
      handed to the store. */
  datatype Change = Change(shown: seq<map<string, Json>>, persisted: map<string, Json>)

  function StatusChange(leads: seq<map<string, Json>>, lead: map<string, Json>, status: string): (c: Change)
    ensures c.shown == Replaced(leads, lead, status) && c.persisted == WithStatus(lead, status)
    ensures forall k :: 0 <= k < |c.shown| && SameId(leads[k], lead) ==> c.shown[k] == c.persisted
  {
    Change(Replaced(leads, lead, status), WithStatus(lead, status))
  }
}
