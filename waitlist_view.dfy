/**
 * The founders' waitlist dashboard (src/components/WaitlistDashboard.tsx): a case-insensitive
 * search over name, trade and e-mail, and the count of Founder spots left.
 */
module WaitlistView {
  import Text
  import Plans
  import opened Wrappers

  datatype Entry = Entry(id: string, name: string, email: string, phone: string, trade: string, createdAt: string,
                         status: string)

  /** The search box stores what is typed in upper case. */
  function StoredSearch(typed: string): (s: string)
    ensures Text.ToLower(s) == Text.ToLower(typed)
  {
    Text.LowerOfUpper(typed);
    Text.ToUpper(typed)
  }

  /** One entry matches when its name, trade or e-mail contains the search text, both lower-cased. */
  predicate Matches(e: Entry, search: string) {
    var q := Text.ToLower(search);
    Text.Contains(Text.ToLower(e.name), q) || Text.Contains(Text.ToLower(e.trade), q) || Text.Contains(Text.ToLower(e.email), q)
  }

  /** `filteredEntries`: the matching entries, in their original order. */
  function Filtered(entries: seq<Entry>, search: string): (r: seq<Entry>)
    ensures |r| <= |entries|
    ensures forall e :: e in r <==> e in entries && Matches(e, search)
  {
    if entries == [] then []
    else
      var n := |entries| - 1;
      Filtered(entries[..n], search) + (if Matches(entries[n], search) then [entries[n]] else [])
  }

  /** Filtering keeps the original order: the result is the entries with the non-matching ones
      dropped, so filtering what was typed and filtering more entries extend each other. */
  lemma {:induction false} FilteredAppend(a: seq<Entry>, b: seq<Entry>, search: string)
    ensures Filtered(a + b, search) == Filtered(a, search) + Filtered(b, search)
    decreases |b|
  {
    if b == [] {
      assert a + b == a;
    } else {
      var n := |b| - 1;
      assert (a + b)[..|a + b| - 1] == a + b[..n];
      FilteredAppend(a, b[..n], search);
    }
  }

  /** The empty search shows every entry. */
  lemma {:induction false} EmptySearchShowsAll(entries: seq<Entry>)
    ensures Filtered(entries, "") == entries
  {
    if entries != [] {
      var n := |entries| - 1;
      EmptySearchShowsAll(entries[..n]);
      assert Text.StartsWith(Text.ToLower(entries[n].name), Text.ToLower(""));
      assert entries[..n] + [entries[n]] == entries;
    }
  }

  /** Case never matters: what is typed and what is stored select the same entries. */
  lemma CaseIgnored(entries: seq<Entry>, typed: string)
    ensures Filtered(entries, StoredSearch(typed)) == Filtered(entries, typed)
  {
    assert forall e :: Matches(e, StoredSearch(typed)) == Matches(e, typed);
    FilterAgrees(entries, StoredSearch(typed), typed);
  }

  lemma {:induction false} FilterAgrees(entries: seq<Entry>, s1: string, s2: string)
    requires forall e :: Matches(e, s1) == Matches(e, s2)
    ensures Filtered(entries, s1) == Filtered(entries, s2)
  {
    if entries != [] {
      FilterAgrees(entries[..|entries| - 1], s1, s2);
    }
  }

  /** `spotsRemaining`: 30 less every entry shown, filtered or not, never below 0. */
  function SpotsRemaining(entries: seq<Entry>): (r: nat)
    ensures r <= Plans.FounderSlots
    ensures r == Plans.FounderSlotsRemaining(Some(|entries|))
  {
    if |entries| >= 30 then 0 else 30 - |entries|
  }

  /** `Total Intent` shows every entry. */
  function TotalIntent(entries: seq<Entry>): (n: nat)
    ensures SpotsRemaining(entries) + n >= Plans.FounderSlots
  {
    |entries|
  }

  function PaidFounders(entries: seq<Entry>): (n: nat)
    ensures n <= |entries|
  {
    if entries == [] then 0
    else PaidFounders(entries[..|entries| - 1]) + (if entries[|entries| - 1].status == "PAID_FOUNDER" then 1 else 0)
  }

  /** The dashboard counts every signup against the 30 spots, so it never shows more spots than the
      paid-Founder count used at checkout leaves. */
  lemma DashboardUnderstatesSpots(entries: seq<Entry>)
    ensures SpotsRemaining(entries) <= Plans.FounderSlotsRemaining(Some(PaidFounders(entries)))
  {
  }
}
