/**
 * The proposal figures shown beside an estimate (src/components/EstimateResultView.tsx and App.tsx):
 *   - base: the sum of the item totals;
 *   - final: base grossed up so that markup and overhead come out of the final price.
 *     Slider positions are whole percentages.
 * Also the ledger's "Lifetime Billed" figure (App.tsx). Numbers are reals; the division keeps
 * JavaScript's non-finite results, the one place where they can arise.
 */
module Financial {
  import opened Wrappers
  import opened Json
  import opened EstimateTypes

  /** The displayed figures: `base`, and `final`, which is a JavaScript number. */
  datatype Figures = Figures(base: real, final: JsNumber)

  const DefaultMarkup: int := 35
  const DefaultOverhead: int := 15
  const MinOverhead: int := 5
  const MaxOverhead: int := 25
  const MinMarkup: int := 10
  const MaxMarkup: int := 50

  /** `items.reduce((a, c) => a + c.total, 0)`, added left to right. */
  function Base(items: seq<LineItem>): (r: real)
    ensures items == [] ==> r == 0.0
    ensures (forall k :: 0 <= k < |items| ==> items[k].total >= 0.0) ==> r >= 0.0
    decreases |items|
  {
    if items == [] then 0.0 else Base(items[..|items| - 1]) + items[|items| - 1].total
  }

  /** `1 - (markup + overhead) / 100`. */
  function Divisor(markup: int, overhead: int): real {
    1.0 - (markup + overhead) as real / 100.0
  }

  /** The `financial` memo: zeros without an estimate, otherwise base and base / divisor. */
  function Figure(est: Option<EstimateResult>, markup: int, overhead: int): (f: Figures)
    ensures est.None? ==> f == Figures(0.0, Finite(0.0))
    ensures est.Some? ==> f.base == Base(est.value.items)
    ensures est.Some? && markup + overhead != 100 ==>
      f.final.Finite? && f.final.value * Divisor(markup, overhead) == f.base
  {
    match est
    case None => Figures(0.0, Finite(0.0))
    case Some(e) => Figures(Base(e.items), Divide(Base(e.items), Divisor(markup, overhead)))
  }

  /** The positions the two range inputs allow. */
  predicate InSliderRange(markup: int, overhead: int) {
    MinMarkup <= markup <= MaxMarkup && MinOverhead <= overhead <= MaxOverhead
  }

  /** Within the slider ranges the divisor lies in [1/4, 17/20], so it is never zero. */
  lemma SliderDivisorBounds(markup: int, overhead: int)
    requires InSliderRange(markup, overhead)
    ensures 0.25 <= Divisor(markup, overhead) <= 0.85
  {
  }

  /** Within the slider ranges a non-negative base is never marked down, and at most quadrupled. */
  lemma FinalAtLeastBase(est: EstimateResult, markup: int, overhead: int)
    requires InSliderRange(markup, overhead)
    requires Base(est.items) >= 0.0
    ensures var f := Figure(Some(est), markup, overhead);
      f.final.Finite? && f.base <= f.final.value <= 4.0 * f.base
  {
    SliderDivisorBounds(markup, overhead);
    var f := Figure(Some(est), markup, overhead);
    var d := Divisor(markup, overhead);
    var x, b := f.final.value, f.base;
    assert x * d == b;
    SignOfFactor(x, d);
    assert x - b == x * (1.0 - d);
    ProductNonnegative(x, 1.0 - d);
    assert 4.0 * b - x == x * (4.0 * d - 1.0);
    ProductNonnegative(x, 4.0 * d - 1.0);
  }

  lemma ProductNonnegative(a: real, c: real)
    requires a >= 0.0 && c >= 0.0
    ensures a * c >= 0.0
  {
  }

  /** A number whose product with a positive one is non-negative is itself non-negative. */
  lemma SignOfFactor(x: real, d: real)
    requires d > 0.0 && x * d >= 0.0
    ensures x >= 0.0
  {
    if x < 0.0 {
      ProductNonnegative(0.0 - x, d);
    }
  }

  /** With the default markup 35 and overhead 15 the final price is twice the base. */
  lemma DefaultsDouble(est: EstimateResult)
    ensures Figure(Some(est), DefaultMarkup, DefaultOverhead).final == Finite(2.0 * Base(est.items))
  {
    assert Divisor(DefaultMarkup, DefaultOverhead) == 0.5;
  }

  /** Nothing guards the sum: at 100 the final price is not a finite number. */
  lemma FullBurdenNotFinite(est: EstimateResult, markup: int, overhead: int)
    requires markup + overhead == 100
    ensures !Figure(Some(est), markup, overhead).final.Finite?
  {
  }

  /** The value a number takes once the ledger is stored as JSON text: non-finite numbers become null. */
  function Stored(n: JsNumber): (j: Json)
    ensures n.Finite? <==> j.JNum?
    ensures n.Finite? ==> j == JNum(n.value)
  {
    if n.Finite? then JNum(n.value) else JNull
  }

  /** One record's contribution to "Lifetime Billed": `c.total_cost || 0`, for a numeric or missing
      total. */
  function Billed(c: Json): (r: real)
    ensures !(c.JObj? && "total_cost" in c.fields && c.fields["total_cost"].JNum?) ==> r == 0.0
    ensures c.JObj? && "total_cost" in c.fields && c.fields["total_cost"].JNum? ==> r == c.fields["total_cost"].n
  {
    match Member(Some(c), "total_cost")
    case Present(JNum(n)) => n
    case _ => 0.0
  }

  /** `history.reduce((a, c) => a + (c.total_cost || 0), 0)`. */
  function LifetimeBilled(history: seq<Json>): (r: real)
    ensures history == [] ==> r == 0.0
    ensures (forall k :: 0 <= k < |history| ==> Billed(history[k]) >= 0.0) ==> r >= 0.0
    decreases |history|
  {
    if history == [] then 0.0 else LifetimeBilled(history[..|history| - 1]) + Billed(history[|history| - 1])
  }

  /** The figure as the dashboard renders it: `c.total_cost` throws on a `null` record, and the
      dashboard then shows no figure at all. */
  function Dashboard(history: seq<Json>): (r: Option<real>)
    ensures r.None? <==> JNull in history
    ensures r.Some? ==> r.value == LifetimeBilled(history)
    decreases |history|
  {
    if history == [] then Some(0.0)
    else
      var last := history[|history| - 1];
      assert history == history[..|history| - 1] + [last];
      match Dashboard(history[..|history| - 1])
      case None => None
      case Some(sum) => if last == JNull then None else Some(sum + Billed(last))
  }

  /** A record put at the front of the ledger adds its amount to the rendered figure, unless the
      ledger already holds a `null` record. */
  lemma DashboardPrepend(record: Json, history: seq<Json>)
    requires record != JNull
    ensures Dashboard([record] + history) == if JNull in history then None else Some(Billed(record) + LifetimeBilled(history))
  {
    var d := Dashboard([record] + history);
    assert JNull in [record] + history <==> JNull in history;
    if d.Some? {
      CommitAddsTotal(record, history);
    }
  }

  /** The sum splits over a concatenation of ledgers. */
  lemma {:induction false} LifetimeBilledAppend(a: seq<Json>, b: seq<Json>)
    ensures LifetimeBilled(a + b) == LifetimeBilled(a) + LifetimeBilled(b)
    decreases |b|
  {
    if b == [] {
      assert a + b == a;
    } else {
      var init := b[..|b| - 1];
      assert (a + b)[..|a + b| - 1] == a + init;
      LifetimeBilledAppend(a, init);
    }
  }

  /** A committed record adds exactly its (finite) total to the figure; a record without one adds 0. */
  lemma CommitAddsTotal(record: Json, history: seq<Json>)
    ensures LifetimeBilled([record] + history) == Billed(record) + LifetimeBilled(history)
    ensures record.JObj? && "total_cost" !in record.fields ==> LifetimeBilled([record] + history) == LifetimeBilled(history)
  {
    LifetimeBilledAppend([record], history);
    assert LifetimeBilled([record]) == LifetimeBilled([record][..0]) + Billed(record);
  }

  /** The sum of item totals splits over a concatenation of item lists. */
  lemma {:induction false} BaseAppend(a: seq<LineItem>, b: seq<LineItem>)
    ensures Base(a + b) == Base(a) + Base(b)
    decreases |b|
  {
    if b == [] {
      assert a + b == a;
    } else {
      var init := b[..|b| - 1];
      assert (a + b)[..|a + b| - 1] == a + init;
      BaseAppend(a, init);
    }
  }
}
