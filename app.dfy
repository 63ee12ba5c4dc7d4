/**
 * The ledger's session: the module-level `state` of app.js (current date,
 * day, targets and library) together with the store it persists to and the
 * counter that supplies fresh ids. Each handler of the page becomes a
 * method; where the page asks for confirmation, the method is the branch
 * taken once it is given.
 */
module App {
  import opened Wrappers
  import opened Food
  import opened Storage
  import opened Ledger
  import opened Library
  import opened Templates
  import opened Metrics

  /** How many ids `loadDay(date)` draws: none for a stored day, one per
      library entry for a created one. */
  function IdsUsedByLoad(store: Store, date: string): nat {
    if StoredDay(store, date).Some? then 0 else |LoadLibrary(store)|
  }

  /** The day `loadDay(date)` returns from `store`, drawing ids from
      `firstId`: the stored day, or one copy of each stored library entry
      with one serving planned, none eaten and fresh ids. */
  function LoadedDay(store: Store, date: string, firstId: Id): (d: Day)
    ensures StoredDay(store, date).Some? ==> d == StoredDay(store, date).value
    ensures StoredDay(store, date).None? ==>
      && d.date == date
      && |d.items| == |LoadLibrary(store)|
      && (forall i :: 0 <= i < |d.items| ==>
            && d.items[i].name == LoadLibrary(store)[i].name
            && d.items[i].macros == LoadLibrary(store)[i].macros
            && d.items[i].planned == 1.0 && d.items[i].consumed == 0.0
            && firstId <= d.items[i].id)
      && AllWellFormed(d.items)
    ensures StoredIdsBelow(store, firstId) ==>
      IdsBelow(d.items, firstId + IdsUsedByLoad(store, date)) && DistinctIds(d.items)
  {
    match StoredDay(store, date)
    case Some(d) => d
    case None => NewDay(date, LoadLibrary(store), firstId)
  }

  /** The store after `loadDay(date)`: the loaded day is stored under its
      date, a day created there being written back; no other key changes,
      and the stored ids stay below the counter. */
  function StoreAfterLoad(store: Store, date: string, firstId: Id): (s: Store)
    ensures StoredDay(s, date) == Some(LoadedDay(store, date, firstId))
    ensures forall k :: k != DayKey(date) ==> (k in s <==> k in store) && (k in store ==> s[k] == store[k])
    ensures StoredDay(store, date).Some? ==> s == store
  {
    if StoredDay(store, date).Some? then store
    else store[DayKey(date) := Parsed(DayVal(LoadedDay(store, date, firstId)))]
  }

  /** Loading keeps every stored id below the counter once the counter has
      moved past the ids the load drew. */
  lemma LoadKeepsIdsBelow(store: Store, date: string, firstId: Id)
    requires StoredIdsBelow(store, firstId)
    ensures var d := LoadedDay(store, date, firstId);
      IdsBelow(d.items, firstId + IdsUsedByLoad(store, date)) && DistinctIds(d.items)
    ensures StoredIdsBelow(StoreAfterLoad(store, date, firstId), firstId + IdsUsedByLoad(store, date))
  {
    var d := LoadedDay(store, date, firstId);
    StoredIdsBelowKept(store, firstId, firstId + IdsUsedByLoad(store, date), DayKey(date), DayVal(d));
  }

  /** Loading a day is idempotent: once loaded, the day is stored, and
      loading it again returns the same day, ids included, and writes
      nothing; no other key is touched. */
  lemma LoadDayIdempotent(store: Store, date: string, firstId: Id, laterId: Id)
    ensures var s := StoreAfterLoad(store, date, firstId);
      && StoredDay(s, date) == Some(LoadedDay(store, date, firstId))
      && LoadedDay(s, date, laterId) == LoadedDay(store, date, firstId)
      && StoreAfterLoad(s, date, laterId) == s
      && forall k :: k != DayKey(date) ==> (k in s <==> k in store) && (k in store ==> s[k] == store[k])
  {
  }

  /** A day created by loading is well formed, with distinct ids. */
  lemma CreatedDayWellFormed(store: Store, date: string, firstId: Id)
    requires StoredDay(store, date).None?
    ensures AllWellFormed(LoadedDay(store, date, firstId).items)
    ensures DistinctIds(LoadedDay(store, date, firstId).items)
    ensures |LoadedDay(store, date, firstId).items| == |LoadLibrary(store)|
  {
    NewDayFromLibrary(date, LoadLibrary(store), firstId);
  }

  /** Marking a line eaten, half or fully, or ticking or clearing its box
      changes only consumption, never the planned-servings total. */
  lemma EatingKeepsPlannedTotal(items: seq<Item>, id: Id, checked: bool)
    ensures Sum(UpdateFirst(items, id, HalfEaten)).plannedServings == Sum(items).plannedServings
    ensures Sum(UpdateFirst(items, id, FullEaten)).plannedServings == Sum(items).plannedServings
    ensures Sum(UpdateFirst(items, id, it => ToggleEaten(it, checked))).plannedServings == Sum(items).plannedServings
  {
    PlannedSumIgnoresConsumption(UpdateFirst(items, id, HalfEaten), items);
    PlannedSumIgnoresConsumption(UpdateFirst(items, id, FullEaten), items);
    PlannedSumIgnoresConsumption(UpdateFirst(items, id, it => ToggleEaten(it, checked)), items);
  }

  /** The plus button changes only a plan, never the consumed totals. */
  lemma PlusKeepsConsumedTotals(items: seq<Item>, id: Id)
    ensures Sum(UpdateFirst(items, id, StepUp)).consumed == Sum(items).consumed
  {
    match FindIndex(items, id)
    case None =>
    case Some(k) =>
      SumReplace(items, k, StepUp(items[k]));
  }

  class Session {
    var store: Store
    var dateStr: string
    var day: Day
    var targets: Macros
    var library: seq<Entry>
    /** The next fresh id to hand out. */
    var nextId: Id

    /** Every id in the day on screen and in every stored day is below
        `nextId`, and no day holds an id twice: the ids the counter hands
        out are new. */
    ghost predicate Valid()
      reads this
    {
      StoredIdsBelow(store, nextId) && IdsBelow(day.items, nextId) && DistinctIds(day.items)
    }

    /** `init` without the theme and rendering: seeds the store, then loads
        the targets, the library and today's day. The counter starts above
        every id already stored. */
    constructor (initial: Store, today: string, firstId: Id)
      requires StoredIdsBelow(initial, firstId)
      ensures Valid()
      ensures nextId == firstId + IdsUsedByLoad(Seeded(initial), today)
      ensures dateStr == today
      ensures targets == LoadTargets(initial) && library == LoadLibrary(initial)
      ensures day == LoadedDay(Seeded(initial), today, firstId)
      ensures store == StoreAfterLoad(Seeded(initial), today, firstId)
      ensures StoredDay(store, today) == Some(day)
    {
      store := initial;
      dateStr := today;
      day := Day(today, []);
      targets := DEFAULT_TARGETS;
      library := DEFAULT_LIBRARY;
      nextId := firstId;
      new;
      EnsureDefaults();
      SeededKeepsStoredIds(initial, firstId);
      SeedingIsStable(initial);
      targets := LoadTargets(store);
      library := LoadLibrary(store);
      day := LoadDay(dateStr);
    }

    /** `saveJson(key, value)`. */
    method SaveJson(key: string, v: Value)
      modifies this`store
      ensures store == old(store)[key := Parsed(v)]
      ensures StoredIdsBelow(old(store), nextId) && (v.DayVal? ==> IdsBelow(v.day.items, nextId) && DistinctIds(v.day.items))
        ==> StoredIdsBelow(store, nextId)
    {
      if StoredIdsBelow(store, nextId) && (v.DayVal? ==> IdsBelow(v.day.items, nextId) && DistinctIds(v.day.items)) {
        StoredIdsBelowKept(store, nextId, nextId, key, v);
      }
      store := store[key := Parsed(v)];
    }

    /** `ensureDefaults`: writes the built-in targets and library under their
        keys where nothing is stored yet. */
    method EnsureDefaults()
      modifies this`store
      ensures store == Seeded(old(store))
      ensures StoredIdsBelow(old(store), nextId) ==> StoredIdsBelow(store, nextId)
    {
      if StoredIdsBelow(store, nextId) {
        SeededKeepsStoredIds(store, nextId);
      }
      var defaults := LoadJson(store, DEFAULTS_KEY, TargetsVal(DEFAULT_TARGETS));
      var lib := LoadJson(store, LIBRARY_KEY, LibraryVal(DEFAULT_LIBRARY));
      if Unset(store, DEFAULTS_KEY) {
        SaveJson(DEFAULTS_KEY, defaults);
      }
      if Unset(store, LIBRARY_KEY) {
        SaveJson(LIBRARY_KEY, lib);
      }
    }

    /** `loadDay(date)`: the stored day, or a new one built from the stored
        library and written at once. */
    method LoadDay(date: string) returns (d: Day)
      modifies this`store, this`nextId
      ensures d == LoadedDay(old(store), date, old(nextId))
      ensures store == StoreAfterLoad(old(store), date, old(nextId))
      ensures nextId == old(nextId) + IdsUsedByLoad(old(store), date)
      ensures StoredDay(store, date) == Some(d)
      ensures StoredIdsBelow(old(store), old(nextId)) ==>
        StoredIdsBelow(store, nextId) && IdsBelow(d.items, nextId) && DistinctIds(d.items)
    {
      if StoredIdsBelow(store, nextId) {
        LoadKeepsIdsBelow(store, date, nextId);
      }
      var stored := StoredDay(store, date);
      if stored.Some? {
        d := stored.value;
      } else {
        var lib := LoadLibrary(store);
        d := NewDay(date, lib, nextId);
        nextId := nextId + |lib|;
        SaveJson(DayKey(date), DayVal(d));
      }
    }

    /** `saveDay(state.day)`. */
    method SaveDay()
      requires Valid()
      modifies this`store
      ensures Valid()
      ensures store == old(store)[DayKey(day.date) := Parsed(DayVal(day))]
    {
      SaveJson(DayKey(day.date), DayVal(day));
    }

    /** The date picker and the today button: an empty date is ignored,
        otherwise that date's day is loaded. */
    method ShowDate(date: string)
      requires Valid()
      modifies this`dateStr, this`day, this`store, this`nextId
      ensures Valid()
      ensures date == [] ==> dateStr == old(dateStr) && day == old(day) && store == old(store) && nextId == old(nextId)
      ensures date != [] ==> dateStr == date && day == LoadedDay(old(store), date, old(nextId))
      ensures date != [] ==> store == StoreAfterLoad(old(store), date, old(nextId)) && StoredDay(store, date) == Some(day)
    {
      if date == [] {
        return;
      }
      dateStr := date;
      day := LoadDay(dateStr);
    }

    /** Applies `rule` to the first line with id `id` and saves the day; an
        unknown id changes and saves nothing. */
    method UpdateLine(id: Id, rule: Item -> Item)
      requires Valid() && forall it :: rule(it).id == it.id
      modifies this`day, this`store
      ensures Valid()
      ensures day == old(day).(items := UpdateFirst(old(day).items, id, rule))
      ensures FindIndex(old(day).items, id).None? ==> store == old(store)
      ensures FindIndex(old(day).items, id).Some? ==> store == old(store)[DayKey(day.date) := Parsed(DayVal(day))]
      ensures (forall it :: WellFormed(it) ==> WellFormed(rule(it))) && AllWellFormed(old(day).items)
        ==> AllWellFormed(day.items)
    {
      if (forall it :: WellFormed(it) ==> WellFormed(rule(it))) && AllWellFormed(day.items) {
        UpdateFirstKeepsDay(day.items, id, rule);
      }
      UpdateFirstKeepsIds(day.items, id, rule, nextId);
      var k := FindIndex(day.items, id);
      if k.Some? {
        day := day.(items := day.items[k.value := rule(day.items[k.value])]);
        SaveDay();
      }
    }

    /** The remove button: drops every line with that id, keeping the rest in
        order, and saves the day; an unknown id changes and saves nothing. */
    method Remove(id: Id)
      requires Valid()
      modifies this`day, this`store
      ensures Valid()
      ensures FindIndex(old(day).items, id).None? ==> day == old(day) && store == old(store)
      ensures FindIndex(old(day).items, id).Some? ==>
        day == old(day).(items := RemoveId(old(day).items, id))
        && store == old(store)[DayKey(day.date) := Parsed(DayVal(day))]
      ensures AllWellFormed(old(day).items) ==> AllWellFormed(day.items)
    {
      if AllWellFormed(day.items) {
        RemoveIdKeepsDay(day.items, id);
      }
      RemoveIdKeepsIds(day.items, id, nextId);
      var k := FindIndex(day.items, id);
      if k.None? {
        return;
      }
      day := day.(items := RemoveId(day.items, id));
      SaveDay();
    }

    /** The "half eaten" button. */
    method MarkHalf(id: Id)
      requires Valid()
      modifies this`day, this`store
      ensures Valid()
      ensures day == old(day).(items := UpdateFirst(old(day).items, id, HalfEaten))
      ensures store == if FindIndex(old(day).items, id).Some? then old(store)[DayKey(day.date) := Parsed(DayVal(day))] else old(store)
      ensures AllWellFormed(old(day).items) ==> AllWellFormed(day.items)
    {
      UpdateLine(id, HalfEaten);
    }

    /** The "fully eaten" button. */
    method MarkFull(id: Id)
      requires Valid()
      modifies this`day, this`store
      ensures Valid()
      ensures day == old(day).(items := UpdateFirst(old(day).items, id, FullEaten))
      ensures store == if FindIndex(old(day).items, id).Some? then old(store)[DayKey(day.date) := Parsed(DayVal(day))] else old(store)
      ensures AllWellFormed(old(day).items) ==> AllWellFormed(day.items)
    {
      UpdateLine(id, FullEaten);
    }

    /** The minus button. */
    method Minus(id: Id)
      requires Valid()
      modifies this`day, this`store
      ensures Valid()
      ensures day == old(day).(items := UpdateFirst(old(day).items, id, StepDown))
      ensures store == if FindIndex(old(day).items, id).Some? then old(store)[DayKey(day.date) := Parsed(DayVal(day))] else old(store)
      ensures AllWellFormed(old(day).items) ==> AllWellFormed(day.items)
    {
      UpdateLine(id, StepDown);
    }

    /** The plus button. */
    method Plus(id: Id)
      requires Valid()
      modifies this`day, this`store
      ensures Valid()
      ensures day == old(day).(items := UpdateFirst(old(day).items, id, StepUp))
      ensures store == if FindIndex(old(day).items, id).Some? then old(store)[DayKey(day.date) := Parsed(DayVal(day))] else old(store)
      ensures AllWellFormed(old(day).items) ==> AllWellFormed(day.items)
    {
      UpdateLine(id, StepUp);
    }

    /** Typing into a line's planned-servings input. */
    method InputPlanned(id: Id, value: real)
      requires Valid()
      modifies this`day, this`store
      ensures Valid()
      ensures day == old(day).(items := UpdateFirst(old(day).items, id, it => SetPlanned(it, value)))
      ensures store == if FindIndex(old(day).items, id).Some? then old(store)[DayKey(day.date) := Parsed(DayVal(day))] else old(store)
      ensures AllWellFormed(old(day).items) ==> AllWellFormed(day.items)
    {
      UpdateLine(id, it => SetPlanned(it, value));
    }

    /** Ticking or clearing a line's eaten check box. */
    method CheckEaten(id: Id, checked: bool)
      requires Valid()
      modifies this`day, this`store
      ensures Valid()
      ensures day == old(day).(items := UpdateFirst(old(day).items, id, it => ToggleEaten(it, checked)))
      ensures store == if FindIndex(old(day).items, id).Some? then old(store)[DayKey(day.date) := Parsed(DayVal(day))] else old(store)
      ensures AllWellFormed(old(day).items) ==> AllWellFormed(day.items)
    {
      UpdateLine(id, it => ToggleEaten(it, checked));
    }

    /** Submitting the add-item form: the line is always appended and the day
        saved; the food joins the library, which is then saved, only when no
        entry has its name up to case. */
    method AddManual(form: ItemForm)
      requires Valid()
      modifies this`day, this`library, this`store, this`nextId
      ensures Valid()
      ensures forall i :: 0 <= i < |old(day).items| ==> old(day).items[i].id != old(nextId)
      ensures forall k :: k in old(store) && old(store)[k].Parsed? && old(store)[k].value.DayVal? ==>
        forall i :: 0 <= i < |old(store)[k].value.day.items| ==> old(store)[k].value.day.items[i].id != old(nextId)
      ensures day == old(day).(items := old(day).items + [ManualItem(form, old(nextId))])
      ensures nextId == old(nextId) + 1
      ensures library == AddIfNew(old(library), FormEntry(form))
      ensures var saved := old(store)[DayKey(day.date) := Parsed(DayVal(day))];
        store == if NameTaken(old(library), FormEntry(form).name) then saved
                 else saved[LIBRARY_KEY := Parsed(LibraryVal(library))]
      ensures AllWellFormed(old(day).items) && 0.0 <= form.planned.GetOr(1.0) ==> AllWellFormed(day.items)
    {
      var entry := FormEntry(form);
      var item := MakeItem(entry, nextId);
      nextId := nextId + 1;
      item := item.(planned := form.planned.GetOr(1.0));
      day := day.(items := day.items + [item]);
      SaveDay();
      var taken := NameTaken(library, entry.name);
      if !taken {
        library := library + [entry];
        SaveJson(LIBRARY_KEY, LibraryVal(library));
      }
    }

    /** The save-template button: overwrites the template with a snapshot of
        the day's lines. */
    method SaveTemplate()
      requires Valid()
      modifies this`store
      ensures Valid()
      ensures store == old(store)[TEMPLATE_KEY := Parsed(TemplateVal(TemplateOf(day.items)))]
      ensures StoredTemplate(store) == Some(TemplateOf(day.items))
    {
      var template := TemplateOf(day.items);
      SaveJson(TEMPLATE_KEY, TemplateVal(template));
    }

    /** The load-template button: with no template saved nothing changes and
        `found` is false; otherwise the day's lines are replaced by lines
        rebuilt from the template and the day is saved. */
    method LoadTemplate() returns (found: bool)
      requires Valid()
      modifies this`day, this`store, this`nextId
      ensures Valid()
      ensures found <==> StoredTemplate(old(store)).Some?
      ensures !found ==> day == old(day) && store == old(store) && nextId == old(nextId)
      ensures found ==>
        var t := StoredTemplate(old(store)).value;
        && day == old(day).(items := ItemsFromTemplate(t, old(nextId)))
        && nextId == old(nextId) + |t|
        && store == old(store)[DayKey(day.date) := Parsed(DayVal(day))]
    {
      var template := StoredTemplate(store);
      if template.None? {
        return false;
      }
      found := true;
      day := day.(items := ItemsFromTemplate(template.value, nextId));
      nextId := nextId + |template.value|;
      SaveDay();
    }

    /** The reset button: the day is rebuilt from the library in memory and
        saved under the current date. */
    method ResetDay()
      requires Valid()
      modifies this`day, this`store, this`nextId
      ensures Valid()
      ensures day == NewDay(dateStr, library, old(nextId))
      ensures nextId == old(nextId) + |library|
      ensures store == old(store)[DayKey(dateStr) := Parsed(DayVal(day))]
      ensures AllWellFormed(day.items) && DistinctIds(day.items)
    {
      NewDayFromLibrary(dateStr, library, nextId);
      day := NewDay(dateStr, library, nextId);
      nextId := nextId + |library|;
      SaveDay();
    }

    /** The numbers behind the progress bars: each consumed total as a
        percent of its target. */
    method CurrentProgress() returns (p: Macros)
      ensures p == Progress(Sum(day.items).consumed, targets)
    {
      var totals := CalcConsumedTotals(day);
      p := Progress(totals.consumed, targets);
    }
  }
}
