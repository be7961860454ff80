/**
 * The proposal's CSI-division sections (src/components/EstimateResultView.tsx):
 *   - the headings are the distinct `csi_division` values in first-seen order (a `Set`), then sorted
 *     with the default string order;
 *   - each section lists the items whose division is exactly its heading, in item order.
 */
module DivisionGroups {
  import opened EstimateTypes
  import Text

  predicate Ascending(s: seq<string>) {
    forall i, j :: 0 <= i < j < |s| ==> Text.Before(s[i], s[j])
  }

  /** Inserts `x` into an ascending list without it. */
  function Insert(x: string, s: seq<string>): (r: seq<string>)
    requires Ascending(s) && x !in s
    ensures Ascending(r) && multiset(r) == multiset(s) + multiset{x}
    decreases |s|
  {
    if s == [] then [x]
    else if Text.Before(x, s[0]) then
      PrependSmallest(x, s);
      [x] + s
    else
      var rest := Insert(x, s[1..]);
      assert Text.Before(s[0], x) by { Text.BeforeIsStrictTotal(x, s[0]); }
      PrependHead(x, s, rest);
      [s[0]] + rest
  }

  lemma PrependSmallest(x: string, s: seq<string>)
    requires Ascending(s) && s != [] && Text.Before(x, s[0])
    ensures Ascending([x] + s)
  {
    forall j | 0 < j < |s| ensures Text.Before(x, s[j]) {
      Text.BeforeTransitive(x, s[0], s[j]);
    }
  }

  lemma PrependHead(x: string, s: seq<string>, rest: seq<string>)
    requires Ascending(s) && s != [] && Text.Before(s[0], x)
    requires Ascending(rest) && multiset(rest) == multiset(s[1..]) + multiset{x}
    ensures Ascending([s[0]] + rest) && multiset([s[0]] + rest) == multiset(s) + multiset{x}
  {
    forall k | 0 <= k < |rest| ensures Text.Before(s[0], rest[k]) {
      assert rest[k] in multiset(rest);
      if rest[k] != x {
        assert rest[k] in multiset(s[1..]);
        var m :| 1 <= m < |s| && s[m] == rest[k];
      }
    }
    assert s == [s[0]] + s[1..];
  }

  predicate Distinct(s: seq<string>) {
    forall i, j :: 0 <= i < j < |s| ==> s[i] != s[j]
  }

  /** Insertion sort of a list without repeats. */
  function Sort(s: seq<string>): (r: seq<string>)
    requires Distinct(s)
    ensures Ascending(r) && multiset(r) == multiset(s)
    decreases |s|
  {
    if s == [] then []
    else
      var init := s[..|s| - 1];
      assert s == init + [s[|s| - 1]];
      var sorted := Sort(init);
      assert s[|s| - 1] !in multiset(init);
      Insert(s[|s| - 1], sorted)
  }

  /** The divisions that occur among the items. */
  function DivisionSet(items: seq<LineItem>): set<string> {
    set k | 0 <= k < |items| :: items[k].csiDivision
  }

  lemma DivisionSetStep(items: seq<LineItem>)
    requires items != []
    ensures DivisionSet(items) == DivisionSet(items[..|items| - 1]) + {items[|items| - 1].csiDivision}
  {
    var init := items[..|items| - 1];
    forall e | e in DivisionSet(items) ensures e in DivisionSet(init) + {items[|items| - 1].csiDivision} {
      var k :| 0 <= k < |items| && items[k].csiDivision == e;
      if k < |init| { assert init[k] == items[k]; }
    }
    forall e | e in DivisionSet(init) ensures e in DivisionSet(items) {
      var k :| 0 <= k < |init| && init[k].csiDivision == e;
      assert items[k] == init[k];
    }
  }

  /** `new Set(items.map(i => i.csi_division))`: each division once, in first-seen order. */
  function Divisions(items: seq<LineItem>): (r: seq<string>)
    ensures Distinct(r)
    ensures forall d :: d in r <==> d in DivisionSet(items)
    decreases |items|
  {
    if items == [] then []
    else
      var init := Divisions(items[..|items| - 1]);
      var d := items[|items| - 1].csiDivision;
      DivisionSetStep(items);
      if d in init then init else init + [d]
  }

  /** The section headings. */
  function Headings(items: seq<LineItem>): seq<string>
  {
    Sort(Divisions(items))
  }

  /** `items.filter(i => i.csi_division === div)`. */
  function Section(items: seq<LineItem>, div: string): (r: seq<LineItem>)
    ensures |r| <= |items|
    decreases |items|
  {
    if items == [] then []
    else
      var init := Section(items[..|items| - 1], div);
      if items[|items| - 1].csiDivision == div then init + [items[|items| - 1]] else init
  }

  /** The headings are sorted, without repeats, and are exactly the divisions that occur. */
  lemma HeadingsSortedDistinct(items: seq<LineItem>)
    ensures Ascending(Headings(items))
    ensures forall d :: d in Headings(items) <==> d in DivisionSet(items)
  {
    var ds := Divisions(items);
    forall d ensures d in Headings(items) <==> d in ds {
      assert d in Headings(items) <==> d in multiset(Headings(items));
      assert d in ds <==> d in multiset(ds);
    }
  }

  /** An item is in a section exactly when its division is that heading. */
  lemma {:induction false} SectionMembers(items: seq<LineItem>, div: string, x: LineItem)
    ensures x in Section(items, div) <==> x in items && x.csiDivision == div
    decreases |items|
  {
    if items != [] {
      var init := items[..|items| - 1];
      SectionMembers(init, div, x);
      assert items == init + [items[|items| - 1]];
    }
  }

  /** The number of items a list of headings covers. */
  function Covered(items: seq<LineItem>, heads: seq<string>): nat
    decreases |heads|
  {
    if heads == [] then 0 else |Section(items, heads[0])| + Covered(items, heads[1..])
  }

  /** The count of `d` among the headings. */
  function Occurrences(heads: seq<string>, d: string): nat
    decreases |heads|
  {
    if heads == [] then 0 else (if heads[0] == d then 1 else 0) + Occurrences(heads[1..], d)
  }

  lemma {:induction false} OccursOnce(heads: seq<string>, d: string)
    requires Distinct(heads) && d in heads
    ensures Occurrences(heads, d) == 1
    decreases |heads|
  {
    if heads[0] == d {
      NoOccurrence(heads[1..], d);
    } else {
      OccursOnce(heads[1..], d);
    }
  }

  lemma {:induction false} NoOccurrence(heads: seq<string>, d: string)
    requires d !in heads
    ensures Occurrences(heads, d) == 0
    decreases |heads|
  {
    if heads != [] {
      NoOccurrence(heads[1..], d);
    }
  }

  /** Adding one item to the list adds it to the coverage once per heading equal to its division. */
  lemma {:induction false} CoveredStep(items: seq<LineItem>, x: LineItem, heads: seq<string>)
    ensures Covered(items + [x], heads) == Covered(items, heads) + Occurrences(heads, x.csiDivision)
    decreases |heads|
  {
    if heads != [] {
      CoveredStep(items, x, heads[1..]);
      assert (items + [x])[..|items + [x]| - 1] == items;
    }
  }

  /** Headings without repeats that name every item's division cover every item exactly once. */
  lemma {:induction false} CoveredCountsItems(items: seq<LineItem>, heads: seq<string>)
    requires Distinct(heads)
    requires forall k :: 0 <= k < |items| ==> items[k].csiDivision in heads
    ensures Covered(items, heads) == |items|
    decreases |items|
  {
    if items == [] {
      EmptyCovered(heads);
    } else {
      var init := items[..|items| - 1];
      var x := items[|items| - 1];
      CoveredCountsItems(init, heads);
      assert items == init + [x];
      CoveredStep(init, x, heads);
      OccursOnce(heads, x.csiDivision);
    }
  }

  lemma {:induction false} EmptyCovered(heads: seq<string>)
    ensures Covered([], heads) == 0
    decreases |heads|
  {
    if heads != [] {
      EmptyCovered(heads[1..]);
    }
  }

  /** The sections partition the items: their sizes add up to the item count. */
  lemma SectionsPartition(items: seq<LineItem>)
    ensures Covered(items, Headings(items)) == |items|
  {
    HeadingsSortedDistinct(items);
    var hs := Headings(items);
    forall i, j | 0 <= i < j < |hs| ensures hs[i] != hs[j] {
      if hs[i] == hs[j] { Text.BeforeIsStrictTotal(hs[i], hs[i]); }
    }
    forall k | 0 <= k < |items| ensures items[k].csiDivision in hs {
      assert items[k].csiDivision in DivisionSet(items);
    }
    CoveredCountsItems(items, hs);
  }
}
