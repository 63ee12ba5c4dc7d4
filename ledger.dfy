/**
 * The day ledger's line operations: finding a line by id, the rules the
 * item-table handlers apply to the line they find, removal, and the line a
 * manual add creates (app.js, the item-table and add-item handlers).
 */
module Ledger {
  import opened Wrappers
  import opened Numbers
  import opened Names
  import opened Food

  /** `items.find((x) => x.id === id)`: the position of the first line with
      that id. */
  function FindIndex(items: seq<Item>, id: Id): (k: Option<nat>)
    ensures k.Some? ==> k.value < |items| && items[k.value].id == id
    ensures k.Some? ==> forall j :: 0 <= j < k.value ==> items[j].id != id
    ensures k.None? <==> forall j :: 0 <= j < |items| ==> items[j].id != id
  {
    if items == [] then None
    else if items[0].id == id then Some(0)
    else match FindIndex(items[1..], id)
      case None => None
      case Some(j) => Some(j + 1)
  }

  /** The same food line: id, name and macros agree. */
  predicate SameLine(a: Item, b: Item) {
    a.id == b.id && a.name == b.name && a.macros == b.macros
  }

  /** "Half eaten": consumed becomes half the plan, rounded to one decimal. */
  function HalfEaten(it: Item): (r: Item)
    ensures SameLine(r, it) && r.planned == it.planned
    ensures r.consumed == Round1(it.planned * 0.5)
    ensures it.planned * 0.5 - 0.05 < r.consumed <= it.planned * 0.5 + 0.05
    ensures 0.0 <= it.planned ==> WellFormed(r)
  {
    if 0.0 <= it.planned then HalfRoundedWithin(it.planned); it.(consumed := Round1(it.planned * 0.5))
    else it.(consumed := Round1(it.planned * 0.5))
  }

  /** "Fully eaten": consumed becomes the plan. */
  function FullEaten(it: Item): (r: Item)
    ensures SameLine(r, it) && r.planned == it.planned && r.consumed == it.planned
    ensures 0.0 <= it.planned ==> WellFormed(r)
  {
    it.(consumed := it.planned)
  }

  /** The eaten check box: ticked eats the whole plan, cleared eats nothing. */
  function ToggleEaten(it: Item, checked: bool): (r: Item)
    ensures SameLine(r, it) && r.planned == it.planned
    ensures r.consumed == if checked then it.planned else 0.0
    ensures 0.0 <= it.planned ==> WellFormed(r)
  {
    it.(consumed := if checked then it.planned else 0.0)
  }

  /** Lowers consumed to `planned` when it exceeds it; never raises it. */
  function ClampConsumed(it: Item): (r: Item)
    ensures SameLine(r, it) && r.planned == it.planned
    ensures r.consumed <= it.consumed && r.consumed <= r.planned
    ensures r.consumed == it.consumed || r.consumed == r.planned
  {
    if it.consumed > it.planned then it.(consumed := it.planned) else it
  }

  /** The planned-servings input: the plan becomes `max(0, value)` and
      consumed is clamped down to it. */
  function SetPlanned(it: Item, value: real): (r: Item)
    ensures SameLine(r, it)
    ensures r.planned == Max(0.0, value)
    ensures r.consumed == if it.consumed > r.planned then r.planned else it.consumed
    ensures 0.0 <= it.consumed ==> WellFormed(r)
  {
    ClampConsumed(it.(planned := Max(0.0, value)))
  }

  /** The minus button: the plan drops by half a serving, rounded, floored at
      0, and consumed is clamped down to it. */
  function StepDown(it: Item): (r: Item)
    ensures SameLine(r, it)
    ensures r.planned == Max(0.0, Round1(it.planned - 0.5))
    ensures r.planned < it.planned || r.planned == 0.0
    ensures r.consumed == if it.consumed > r.planned then r.planned else it.consumed
    ensures 0.0 <= it.consumed ==> WellFormed(r)
  {
    ClampConsumed(it.(planned := Max(0.0, Round1(it.planned - 0.5))))
  }

  /** The plus button: the plan rises by half a serving, rounded; consumed is
      untouched. */
  function StepUp(it: Item): (r: Item)
    ensures SameLine(r, it) && r.consumed == it.consumed
    ensures r.planned == Round1(it.planned + 0.5)
    ensures it.planned + 0.45 < r.planned <= it.planned + 0.55
    ensures WellFormed(it) ==> WellFormed(r)
  {
    it.(planned := Round1(it.planned + 0.5))
  }

  /** Every line rule keeps a well-formed line well formed. */
  lemma RulesKeepWellFormed(it: Item, checked: bool, value: real)
    requires WellFormed(it)
    ensures WellFormed(HalfEaten(it)) && WellFormed(FullEaten(it))
    ensures WellFormed(ToggleEaten(it, checked)) && WellFormed(SetPlanned(it, value))
    ensures WellFormed(StepDown(it)) && WellFormed(StepUp(it))
  {
  }

  /** Applies `rule` to the first line with id `id`, if there is one. */
  function UpdateFirst(items: seq<Item>, id: Id, rule: Item -> Item): (r: seq<Item>)
    ensures |r| == |items|
    ensures FindIndex(items, id).None? ==> r == items
    ensures FindIndex(items, id).Some? ==>
      var k := FindIndex(items, id).value;
      r[k] == rule(items[k]) && forall j :: 0 <= j < |items| && j != k ==> r[j] == items[j]
  {
    match FindIndex(items, id)
    case None => items
    case Some(k) => items[k := rule(items[k])]
  }

  /** A rule that keeps lines well formed keeps the day well formed, and only
      a line carrying the id can change. */
  lemma UpdateFirstKeepsDay(items: seq<Item>, id: Id, rule: Item -> Item)
    requires AllWellFormed(items)
    requires forall it :: WellFormed(it) ==> WellFormed(rule(it))
    ensures AllWellFormed(UpdateFirst(items, id, rule))
    ensures forall j :: 0 <= j < |items| && items[j].id != id ==> UpdateFirst(items, id, rule)[j] == items[j]
  {
  }

  /** A rule that keeps each line's id keeps the day's ids distinct and
      bounded. */
  lemma UpdateFirstKeepsIds(items: seq<Item>, id: Id, rule: Item -> Item, n: Id)
    requires forall it :: rule(it).id == it.id
    requires IdsBelow(items, n) && DistinctIds(items)
    ensures IdsBelow(UpdateFirst(items, id, rule), n) && DistinctIds(UpdateFirst(items, id, rule))
  {
    var r := UpdateFirst(items, id, rule);
    assert forall j :: 0 <= j < |items| ==> r[j].id == items[j].id;
  }

  /** `items.filter((x) => x.id !== id)`. */
  function RemoveId(items: seq<Item>, id: Id): (r: seq<Item>)
    ensures |r| <= |items|
    ensures forall x :: x in r <==> x in items && x.id != id
    ensures (forall j :: 0 <= j < |items| ==> items[j].id != id) ==> r == items
  {
    if items == [] then []
    else if items[0].id == id then RemoveId(items[1..], id)
    else [items[0]] + RemoveId(items[1..], id)
  }

  /** Removal works line by line and keeps the surviving lines in their
      order. */
  lemma {:induction false} RemoveIdAppend(a: seq<Item>, b: seq<Item>, id: Id)
    ensures RemoveId(a + b, id) == RemoveId(a, id) + RemoveId(b, id)
  {
    if a == [] {
      assert a + b == b;
    } else {
      assert (a + b)[1..] == a[1..] + b;
      RemoveIdAppend(a[1..], b, id);
    }
  }

  /** A line whose id is below the bound and absent from the rest can head
      the rest without breaking its ids. */
  lemma ConsKeepsIds(x: Item, rest: seq<Item>, n: Id)
    requires x.id < n && IdsBelow(rest, n) && DistinctIds(rest)
    requires forall y :: y in rest ==> y.id != x.id
    ensures IdsBelow([x] + rest, n) && DistinctIds([x] + rest)
  {
    var r := [x] + rest;
    forall i, j | 0 <= i < j < |r| ensures r[i].id != r[j].id {
      assert r[j] == rest[j - 1];
      if i > 0 {
        assert r[i] == rest[i - 1];
      }
    }
  }

  /** Removal keeps the ids distinct and bounded. */
  lemma {:induction false} RemoveIdKeepsIds(items: seq<Item>, id: Id, n: Id)
    requires IdsBelow(items, n) && DistinctIds(items)
    ensures IdsBelow(RemoveId(items, id), n) && DistinctIds(RemoveId(items, id))
  {
    if items != [] {
      var tail := items[1..];
      assert IdsBelow(tail, n) && DistinctIds(tail);
      RemoveIdKeepsIds(tail, id, n);
      var rt := RemoveId(tail, id);
      if items[0].id != id {
        forall y | y in rt ensures y.id != items[0].id {
          var m :| 0 <= m < |tail| && tail[m] == y;
          assert items[m + 1] == y;
        }
        ConsKeepsIds(items[0], rt, n);
      }
    }
  }


  /** Removal keeps every remaining line well formed. */
  lemma RemoveIdKeepsDay(items: seq<Item>, id: Id)
    requires AllWellFormed(items)
    ensures AllWellFormed(RemoveId(items, id))
  {
    var r := RemoveId(items, id);
    forall i | 0 <= i < |r| ensures WellFormed(r[i]) {
      assert r[i] in items;
    }
  }

  /** The add-item form with its number fields read as numbers; `None` is an
      empty field. */
  datatype ItemForm = ItemForm(
    name: string,
    calories: Option<real>, protein: Option<real>, carbs: Option<real>, fat: Option<real>,
    planned: Option<real>)

  /** The library entry a submitted form describes: the trimmed name and the
      macros, an empty field counting as 0. */
  function FormEntry(form: ItemForm): (e: Entry)
    ensures e.name == Trim(form.name)
    ensures e.macros.calories == form.calories.GetOr(0.0) && e.macros.protein == form.protein.GetOr(0.0)
    ensures e.macros.carbs == form.carbs.GetOr(0.0) && e.macros.fat == form.fat.GetOr(0.0)
  {
    Entry(Trim(form.name),
          Macros(form.calories.GetOr(0.0), form.protein.GetOr(0.0), form.carbs.GetOr(0.0), form.fat.GetOr(0.0)))
  }

  /** The line a submitted form adds: the entry, nothing eaten, and the typed
      planned servings, 1 when the field is empty. A typed negative plan is
      kept as it is. */
  function ManualItem(form: ItemForm, id: Id): (it: Item)
    ensures it.id == id && it.name == FormEntry(form).name && it.macros == FormEntry(form).macros
    ensures it.consumed == 0.0 && it.planned == form.planned.GetOr(1.0)
    ensures WellFormed(it) <==> 0.0 <= form.planned.GetOr(1.0)
  {
    MakeItem(FormEntry(form), id).(planned := form.planned.GetOr(1.0))
  }
}
