/**
 * The ledger's records: per-serving macro values, library entries, the
 * instances planned on a day, the day itself and template lines, together
 * with the built-in targets and seed library and the constructors that copy
 * a library entry into a day (app.js, "Day model").
 */
module Food {

  /** Instance ids. The source draws a random UUID; here a caller supplies
      a fresh number. */
  type Id = nat

  /** Calories, protein, carbohydrates and fat. */
  datatype Macros = Macros(calories: real, protein: real, carbs: real, fat: real) {

    function Plus(other: Macros): Macros {
      Macros(calories + other.calories, protein + other.protein,
             carbs + other.carbs, fat + other.fat)
    }

    function Times(k: real): Macros {
      Macros(calories * k, protein * k, carbs * k, fat * k)
    }

    predicate NonNegative() {
      0.0 <= calories && 0.0 <= protein && 0.0 <= carbs && 0.0 <= fat
    }
  }

  const Zero := Macros(0.0, 0.0, 0.0, 0.0)

  /** A reusable library food: its name and its macros per serving. */
  datatype Entry = Entry(name: string, macros: Macros)

  /** One line of a day: a copy of a food with planned and consumed servings. */
  datatype Item = Item(id: Id, name: string, macros: Macros, planned: real, consumed: real)

  /** The ledger of one date. */
  datatype Day = Day(date: string, items: seq<Item>)

  /** One line of a saved template: a food and its planned servings. */
  datatype TemplateEntry = TemplateEntry(name: string, macros: Macros, planned: real)

  /** The ledger's invariant for one line: nothing negative is eaten, and
      never more than is planned. */
  predicate WellFormed(it: Item) {
    0.0 <= it.consumed <= it.planned
  }

  predicate AllWellFormed(items: seq<Item>) {
    forall i :: 0 <= i < |items| ==> WellFormed(items[i])
  }

  /** No two lines share an id. */
  predicate DistinctIds(items: seq<Item>) {
    forall i, j :: 0 <= i < j < |items| ==> items[i].id != items[j].id
  }

  /** Every line's id is below `n`, so `n` and above are still unused. */
  predicate IdsBelow(items: seq<Item>, n: Id) {
    forall i :: 0 <= i < |items| ==> items[i].id < n
  }

  /** The targets used until the user saves others. */
  const DEFAULT_TARGETS := Macros(2000.0, 160.0, 165.0, 41.0)

  /** The library written on first run. */
  const DEFAULT_LIBRARY: seq<Entry> := [
    Entry("Smoked Turkey (100 g)", Macros(100.0, 16.0, 1.0, 3.0)),
    Entry("Kashkawan Cheese (50 g)", Macros(180.0, 12.0, 1.0, 14.0)),
    Entry("Oat Loaf", Macros(140.0, 5.0, 25.0, 2.0)),
    Entry("Chicken Breast (200 g, raw)", Macros(240.0, 46.0, 0.0, 4.0)),
    Entry("Olive Oil (1 tsp, with chicken)", Macros(40.0, 0.0, 0.0, 4.5)),
    Entry("Potato (300 g, raw)", Macros(258.0, 7.0, 60.0, 0.4)),
    Entry("Taanayel Greek Yogurt Cup", Macros(128.0, 10.0, 6.0, 5.0)),
    Entry("Tuna Can", Macros(145.0, 24.0, 0.0, 1.0)),
    Entry("Olive Oil (1 tsp, with tuna)", Macros(40.0, 0.0, 0.0, 4.5)),
    Entry("Lettuce (100 g)", Macros(15.0, 1.0, 3.0, 0.0)),
    Entry("Banana (medium ~120 g)", Macros(105.0, 1.0, 27.0, 0.0)),
    Entry("Apple (medium ~150 g)", Macros(95.0, 0.0, 25.0, 0.0)),
    Entry("Almonds (15 g)", Macros(87.0, 3.0, 3.0, 7.0)),
    Entry("Whey Protein (1 scoop)", Macros(130.0, 30.0, 3.0, 2.0)),
    Entry("Lactose-Free Milk (250 ml)", Macros(117.0, 8.0, 12.0, 4.0))
  ]

  /** `makeItemFromLibraryEntry`: a new line with the entry's name and macros,
      one serving planned and none eaten. */
  function MakeItem(e: Entry, id: Id): (it: Item)
    ensures it.id == id && it.name == e.name && it.macros == e.macros
    ensures it.planned == 1.0 && it.consumed == 0.0 && WellFormed(it)
  {
    Item(id, e.name, e.macros, 1.0, 0.0)
  }

  /** `library.map(makeItemFromLibraryEntry)`, the i-th line taking id
      `firstId + i`. */
  function MakeItems(library: seq<Entry>, firstId: Id): (items: seq<Item>)
    ensures |items| == |library|
    ensures forall i :: 0 <= i < |library| ==> items[i] == MakeItem(library[i], firstId + i)
  {
    if library == [] then []
    else [MakeItem(library[0], firstId)] + MakeItems(library[1..], firstId + 1)
  }

  /** `makeNewDayFromLibrary`. */
  function NewDay(date: string, library: seq<Entry>, firstId: Id): (d: Day)
    ensures d.date == date && |d.items| == |library|
    ensures forall i :: 0 <= i < |library| ==> d.items[i] == MakeItem(library[i], firstId + i)
    ensures IdsBelow(d.items, firstId + |library|) && DistinctIds(d.items)
  {
    Day(date, MakeItems(library, firstId))
  }

  /** A day built from a library has one line per entry, in library order,
      each a copy of its entry with one serving planned, none eaten and its
      own id. */
  lemma NewDayFromLibrary(date: string, library: seq<Entry>, firstId: Id)
    ensures var d := NewDay(date, library, firstId);
      && d.date == date
      && |d.items| == |library|
      && (forall i :: 0 <= i < |library| ==>
            && d.items[i].name == library[i].name
            && d.items[i].macros == library[i].macros
            && d.items[i].planned == 1.0
            && d.items[i].consumed == 0.0)
      && AllWellFormed(d.items)
      && DistinctIds(d.items)
  {
  }
}
