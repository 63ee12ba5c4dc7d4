/**
 * Templates: the snapshot of a day's composition that "save template"
 * stores, and the lines "load template" rebuilds from it (app.js, the
 * template handlers).
 */
module Templates {
  import opened Food

  /** One saved line: the food and its plan, without id or consumption. */
  function Snapshot(it: Item): TemplateEntry {
    TemplateEntry(it.name, it.macros, it.planned)
  }

  /** `items.map(...)` of the save handler. */
  function TemplateOf(items: seq<Item>): (t: seq<TemplateEntry>)
    ensures |t| == |items|
    ensures forall i :: 0 <= i < |items| ==> t[i] == Snapshot(items[i])
  {
    if items == [] then [] else [Snapshot(items[0])] + TemplateOf(items[1..])
  }

  /** The plan a loaded line gets: `Number(t.plannedServings || 1)`, so a
      stored 0 comes back as 1. */
  function RestoredPlan(stored: real): (p: real)
    ensures stored != 0.0 ==> p == stored
    ensures stored == 0.0 ==> p == 1.0
  {
    if stored == 0.0 then 1.0 else stored
  }

  /** One loaded line: a fresh line for the food with the restored plan. */
  function Restore(t: TemplateEntry, id: Id): Item {
    MakeItem(Entry(t.name, t.macros), id).(planned := RestoredPlan(t.planned))
  }

  /** `template.map(...)` of the load handler, the i-th line taking id
      `firstId + i`. */
  function ItemsFromTemplate(template: seq<TemplateEntry>, firstId: Id): (items: seq<Item>)
    ensures |items| == |template|
    ensures forall i :: 0 <= i < |template| ==> items[i] == Restore(template[i], firstId + i)
  {
    if template == [] then []
    else [Restore(template[0], firstId)] + ItemsFromTemplate(template[1..], firstId + 1)
  }

  /** Saving a day's lines and loading them back gives the same foods in the
      same order with the same plans (a plan of 0 becoming 1), nothing eaten
      and fresh, distinct ids. */
  lemma TemplateRoundTrip(items: seq<Item>, firstId: Id)
    ensures var r := ItemsFromTemplate(TemplateOf(items), firstId);
      && |r| == |items|
      && (forall i :: 0 <= i < |items| ==>
            && r[i].name == items[i].name
            && r[i].macros == items[i].macros
            && r[i].planned == RestoredPlan(items[i].planned)
            && r[i].consumed == 0.0
            && r[i].id == firstId + i)
      && DistinctIds(r)
  {
  }

  /** Loaded lines are well formed exactly when no stored plan is negative;
      the load handler does not clamp. */
  lemma LoadedTemplateWellFormed(template: seq<TemplateEntry>, firstId: Id)
    ensures AllWellFormed(ItemsFromTemplate(template, firstId))
        <==> forall i :: 0 <= i < |template| ==> 0.0 <= template[i].planned
  {
    var items := ItemsFromTemplate(template, firstId);
    if !AllWellFormed(items) {
      var i :| 0 <= i < |items| && !WellFormed(items[i]);
      assert template[i].planned < 0.0;
    }
  }
}
