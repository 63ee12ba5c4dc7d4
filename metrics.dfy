/**
 * The derived metrics of a day: consumed totals and the progress percent
 * shown against each target (app.js, "Calculations" and the progress bars).
 */
module Metrics {
  import opened Numbers
  import opened Food

  /** Consumed macros, and the planned servings summed. */
  datatype Totals = Totals(consumed: Macros, plannedServings: real) {
    function Plus(other: Totals): Totals {
      Totals(consumed.Plus(other.consumed), plannedServings + other.plannedServings)
    }
  }

  const NoTotals := Totals(Zero, 0.0)

  /** What one line adds: its macros times the servings eaten, and its plan. */
  function Contribution(it: Item): Totals {
    Totals(it.macros.Times(it.consumed), it.planned)
  }

  /** The totals of a list of lines: the sum of their contributions. */
  function Sum(items: seq<Item>): Totals {
    if items == [] then NoTotals else Contribution(items[0]).Plus(Sum(items[1..]))
  }

  /** Totals add up across a split of the lines. */
  lemma {:induction false} SumAppend(a: seq<Item>, b: seq<Item>)
    ensures Sum(a + b) == Sum(a).Plus(Sum(b))
  {
    if a == [] {
      assert a + b == b;
    } else {
      assert (a + b)[1..] == a[1..] + b;
      SumAppend(a[1..], b);
    }
  }

  /** `calcConsumedTotals(day)`: folds the lines left to right into an
      accumulator that starts at zero. The day is a value and is not changed. */
  method CalcConsumedTotals(day: Day) returns (t: Totals)
    ensures t == Sum(day.items)
  {
    t := NoTotals;
    var i := 0;
    while i < |day.items|
      invariant 0 <= i <= |day.items|
      invariant t == Sum(day.items[..i])
    {
      var it := day.items[i];
      SumAppend(day.items[..i], [it]);
      assert day.items[..i + 1] == day.items[..i] + [it];
      t := Totals(
        Macros(t.consumed.calories + it.macros.calories * it.consumed,
               t.consumed.protein + it.macros.protein * it.consumed,
               t.consumed.carbs + it.macros.carbs * it.consumed,
               t.consumed.fat + it.macros.fat * it.consumed),
        t.plannedServings + it.planned);
      i := i + 1;
    }
    assert day.items[..i] == day.items;
  }

  /** An empty day totals zero everywhere. */
  lemma EmptyDayTotalsZero(date: string)
    ensures Sum(Day(date, []).items) == Totals(Macros(0.0, 0.0, 0.0, 0.0), 0.0)
  {
  }

  /** The planned-servings total depends on the plans alone: lines that agree
      on their plans give the same total however much was eaten. */
  lemma {:induction false} PlannedSumIgnoresConsumption(a: seq<Item>, b: seq<Item>)
    requires |a| == |b|
    requires forall i :: 0 <= i < |a| ==> a[i].planned == b[i].planned
    ensures Sum(a).plannedServings == Sum(b).plannedServings
  {
    if a != [] {
      PlannedSumIgnoresConsumption(a[1..], b[1..]);
    }
  }

  /** With non-negative macros and nothing negative eaten, every consumed
      total is non-negative. */
  lemma {:induction false} SumNonNegative(items: seq<Item>)
    requires forall i :: 0 <= i < |items| ==> items[i].macros.NonNegative() && 0.0 <= items[i].consumed
    ensures Sum(items).consumed.NonNegative()
  {
    if items != [] {
      SumNonNegative(items[1..]);
      var it := items[0];
      assert 0.0 <= it.macros.calories * it.consumed;
      assert 0.0 <= it.macros.protein * it.consumed;
      assert 0.0 <= it.macros.carbs * it.consumed;
      assert 0.0 <= it.macros.fat * it.consumed;
    }
  }

  /** Replacing one line changes the totals by the difference of the two
      lines' contributions, and by nothing else. */
  lemma SumReplace(items: seq<Item>, k: nat, x: Item)
    requires k < |items|
    ensures Sum(items[k := x]).Plus(Contribution(items[k])) == Sum(items).Plus(Contribution(x))
  {
    var pre, post := items[..k], items[k + 1..];
    assert items == pre + ([items[k]] + post);
    assert items[k := x] == pre + ([x] + post);
    SumAppend(pre, [items[k]] + post);
    SumAppend(pre, [x] + post);
    SumAppend([items[k]], post);
    SumAppend([x], post);
  }

  /** The example of one line of 100 kcal, 16 g protein, 1 g carbs and 3 g fat
      with two servings planned and one eaten. */
  lemma OneLineExample()
    ensures var items := [Item(0, "Smoked Turkey (100 g)", Macros(100.0, 16.0, 1.0, 3.0), 2.0, 1.0)];
      Sum(items) == Totals(Macros(100.0, 16.0, 1.0, 3.0), 2.0)
      && Percent(Sum(items).consumed.calories, 2000.0) == 5.0
  {
  }

  /** `target > 0 ? clamp((value / target) * 100, 0, 140) : 0`. */
  function Percent(value: real, target: real): (p: real)
    ensures 0.0 <= p <= 140.0
    ensures target <= 0.0 ==> p == 0.0
    ensures target > 0.0 && 0.0 <= value <= target * 1.4 ==> p == value / target * 100.0
    ensures target > 0.0 && value < 0.0 ==> p == 0.0
    ensures target > 0.0 && value > target * 1.4 ==> p == 140.0
  {
    if target > 0.0 then
      var ratio := value / target * 100.0;
      assert 0.0 <= value ==> 0.0 <= ratio;
      assert value <= target * 1.4 ==> ratio <= 140.0;
      assert value < 0.0 ==> ratio < 0.0;
      assert value > target * 1.4 ==> ratio > 140.0;
      Clamp(ratio, 0.0, 140.0)
    else 0.0
  }

  /** A bar is full (100%) exactly when the value meets its positive target. */
  lemma PercentFullExactlyAtTarget(value: real, target: real)
    requires target > 0.0
    ensures Percent(value, target) == 100.0 <==> value == target
  {
    if value == target {
      assert value / target == 1.0;
    }
  }

  /** More consumed never shows less progress. */
  lemma PercentMonotone(v1: real, v2: real, target: real)
    requires v1 <= v2
    ensures Percent(v1, target) <= Percent(v2, target)
  {
    if target > 0.0 {
      assert v1 / target <= v2 / target;
    }
  }

  /** The four progress percents of a day's consumed totals. */
  function Progress(consumed: Macros, targets: Macros): (p: Macros)
    ensures 0.0 <= p.calories <= 140.0 && 0.0 <= p.protein <= 140.0
    ensures 0.0 <= p.carbs <= 140.0 && 0.0 <= p.fat <= 140.0
    ensures targets.calories <= 0.0 ==> p.calories == 0.0
    ensures targets.protein <= 0.0 ==> p.protein == 0.0
    ensures targets.carbs <= 0.0 ==> p.carbs == 0.0
    ensures targets.fat <= 0.0 ==> p.fat == 0.0
    ensures p.calories == Percent(consumed.calories, targets.calories)
    ensures p.protein == Percent(consumed.protein, targets.protein)
    ensures p.carbs == Percent(consumed.carbs, targets.carbs)
    ensures p.fat == Percent(consumed.fat, targets.fat)
  {
    Macros(Percent(consumed.calories, targets.calories), Percent(consumed.protein, targets.protein),
           Percent(consumed.carbs, targets.carbs), Percent(consumed.fat, targets.fat))
  }
}
