/**
 * The Digital Twin proposal viewer (src/components/DigitalTwinViewer.tsx). A Standard/Premium tier
 * scales every displayed figure by 1 or 5/4. The base is the sum of the item totals, and 0 when the
 * estimate has no items.
 */
module DigitalTwin {
  import opened Wrappers
  import opened EstimateTypes
  import Financial

  datatype Tier = Standard | Premium

  const InitialTier: Tier := Standard

  function Multiplier(t: Tier): (m: real)
    ensures m == 1.0 <==> t == Standard
    ensures t == Premium ==> m == 1.25
  {
    match t
    case Premium => 1.25
    case Standard => 1.0
  }

  /** `estimate.items?.reduce(...) || 0`: no items gives 0 (a zero sum is 0 either way). */
  function BaseTotal(items: Option<seq<LineItem>>): (b: real)
    ensures items.None? ==> b == 0.0
    ensures items.Some? ==> b == Financial.Base(items.value)
  {
    if items.Some? then Financial.Base(items.value) else 0.0
  }

  /** The displayed total: the base scaled by the tier's multiplier. */
  function CurrentTotal(items: Option<seq<LineItem>>, t: Tier): (r: real)
    ensures items.None? ==> r == 0.0
    ensures t == Standard ==> r == BaseTotal(items)
    ensures BaseTotal(items) >= 0.0 ==> r >= BaseTotal(items)
  {
    BaseTotal(items) * Multiplier(t)
  }

  /** The displayed item totals: each item's total times the multiplier. */
  function DisplayedTotals(items: seq<LineItem>, t: Tier): (r: seq<real>)
    ensures |r| == |items| && forall k :: 0 <= k < |items| ==> r[k] == items[k].total * Multiplier(t)
  {
    seq(|items|, k requires 0 <= k < |items| => items[k].total * Multiplier(t))
  }

  function Sum(xs: seq<real>): real
    decreases |xs|
  {
    if xs == [] then 0.0 else Sum(xs[..|xs| - 1]) + xs[|xs| - 1]
  }

  /** The displayed item totals add up to the displayed total. */
  lemma {:induction false} DisplayedSumIsTotal(items: seq<LineItem>, t: Tier)
    ensures Sum(DisplayedTotals(items, t)) == CurrentTotal(Some(items), t)
    decreases |items|
  {
    if items != [] {
      var init := items[..|items| - 1];
      DisplayedSumIsTotal(init, t);
      assert DisplayedTotals(items, t)[..|items| - 1] == DisplayedTotals(init, t);
      calc {
        CurrentTotal(Some(items), t);
        (Financial.Base(init) + items[|items| - 1].total) * Multiplier(t);
        Financial.Base(init) * Multiplier(t) + items[|items| - 1].total * Multiplier(t);
      }
    }
  }

  /** The initial tier shows the base itself; Premium shows 5/4 of it. */
  lemma TierTotals(items: Option<seq<LineItem>>)
    ensures CurrentTotal(items, InitialTier) == BaseTotal(items)
    ensures CurrentTotal(items, Premium) == 1.25 * BaseTotal(items)
  {
  }

  /** A tier button sets the tier, whatever it was. */
  function Select(current: Tier, chosen: Tier): Tier
  {
    chosen
  }

  /** The total depends on the tier alone: from the initial tier, Premium then Standard restores it. */
  lemma ToggleRestores(items: Option<seq<LineItem>>)
    ensures CurrentTotal(items, Select(Select(InitialTier, Premium), Standard)) == CurrentTotal(items, InitialTier)
  {
  }
}
