/**
 * The browser store as the ledger sees it: a map from key to the text kept
 * under it, abstracted as "empty", "unparsable" or the parsed value. Keys
 * share the versioned prefix `dt_v1_`; a day is kept under the prefix, `day_`
 * and its date string.
 */
module Storage {
  import opened Wrappers
  import opened Food

  /** The parsed values the ledger reads and writes. `Falsy` stands for a
      parsed value JavaScript treats as false (`null`, `false`, `0`, `""`). */
  datatype Value =
    | Falsy
    | TargetsVal(targets: Macros)
    | LibraryVal(library: seq<Entry>)
    | TemplateVal(template: seq<TemplateEntry>)
    | DayVal(day: Day)

  /** The text stored under a key: the empty string, text that fails to
      parse, or the serialisation of a value. */
  datatype Raw = Empty | Unparsable | Parsed(value: Value)

  type Store = map<string, Raw>

  const LIBRARY_KEY := "dt_v1_library"
  const DEFAULTS_KEY := "dt_v1_defaults"
  const TEMPLATE_KEY := "dt_v1_template"
  const THEME_KEY := "dt_v1_theme"
  const DAY_PREFIX := "dt_v1_day_"

  function DayKey(date: string): string {
    DAY_PREFIX + date
  }

  /** Different dates are kept under different keys. */
  lemma DayKeyInjective(a: string, b: string)
    requires DayKey(a) == DayKey(b)
    ensures a == b
  {
    assert a == DayKey(a)[|DAY_PREFIX|..];
    assert b == DayKey(b)[|DAY_PREFIX|..];
  }

  /** No day key coincides with one of the fixed keys, so saving a day never
      overwrites the library, the targets, the template or the theme. */
  lemma DayKeyNotFixed(date: string)
    ensures DayKey(date) != LIBRARY_KEY && DayKey(date) != DEFAULTS_KEY
    ensures DayKey(date) != TEMPLATE_KEY && DayKey(date) != THEME_KEY
  {
    assert DayKey(date)[6] == 'd' && DayKey(date)[7] == 'a';
    assert LIBRARY_KEY[6] == 'l' && TEMPLATE_KEY[6] == 't' && THEME_KEY[6] == 't';
    assert DEFAULTS_KEY[7] == 'e';
  }

  /** `!localStorage.getItem(key)`: nothing, or the empty string, is stored. */
  predicate Unset(store: Store, key: string) {
    key !in store || store[key] == Empty
  }

  /** `loadJson(key, fallback)`: the stored value, or `fallback` when the key
      is missing, empty or does not parse. */
  function LoadJson(store: Store, key: string, fallback: Value): (v: Value)
    ensures v == fallback || (key in store && store[key] == Parsed(v))
    ensures key in store && store[key].Parsed? ==> v == store[key].value
    ensures !(key in store && store[key].Parsed?) ==> v == fallback
  {
    if key !in store then fallback
    else match store[key]
      case Empty => fallback
      case Unparsable => fallback
      case Parsed(v) => v
  }

  /** `saveJson(key, value)` on the abstract store. */
  function SaveJson(store: Store, key: string, v: Value): Store {
    store[key := Parsed(v)]
  }

  /** Reading a key just written gives back what was written; other keys
      read as before. */
  lemma LoadAfterSave(store: Store, key: string, v: Value, other: string, fallback: Value)
    ensures LoadJson(SaveJson(store, key, v), key, fallback) == v
    ensures other != key ==> LoadJson(SaveJson(store, key, v), other, fallback) == LoadJson(store, other, fallback)
  {
  }

  /** The stored targets, or the built-in ones. */
  function LoadTargets(store: Store): (t: Macros)
    ensures t == DEFAULT_TARGETS || (DEFAULTS_KEY in store && store[DEFAULTS_KEY] == Parsed(TargetsVal(t)))
    ensures Unset(store, DEFAULTS_KEY) ==> t == DEFAULT_TARGETS
    ensures DEFAULTS_KEY in store && store[DEFAULTS_KEY].Parsed? && store[DEFAULTS_KEY].value.TargetsVal?
      ==> t == store[DEFAULTS_KEY].value.targets
    ensures !(DEFAULTS_KEY in store && store[DEFAULTS_KEY].Parsed? && store[DEFAULTS_KEY].value.TargetsVal?)
      ==> t == DEFAULT_TARGETS
  {
    match LoadJson(store, DEFAULTS_KEY, TargetsVal(DEFAULT_TARGETS))
    case TargetsVal(t) => t
    case _ => DEFAULT_TARGETS
  }

  /** The stored library, or the built-in one. */
  function LoadLibrary(store: Store): (lib: seq<Entry>)
    ensures lib == DEFAULT_LIBRARY || (LIBRARY_KEY in store && store[LIBRARY_KEY] == Parsed(LibraryVal(lib)))
    ensures Unset(store, LIBRARY_KEY) ==> lib == DEFAULT_LIBRARY
    ensures LIBRARY_KEY in store && store[LIBRARY_KEY].Parsed? && store[LIBRARY_KEY].value.LibraryVal?
      ==> lib == store[LIBRARY_KEY].value.library
    ensures !(LIBRARY_KEY in store && store[LIBRARY_KEY].Parsed? && store[LIBRARY_KEY].value.LibraryVal?)
      ==> lib == DEFAULT_LIBRARY
  {
    match LoadJson(store, LIBRARY_KEY, LibraryVal(DEFAULT_LIBRARY))
    case LibraryVal(lib) => lib
    case _ => DEFAULT_LIBRARY
  }

  /** `loadJson(day key, null)` followed by the `!day` test: the stored day,
      if there is one. */
  function StoredDay(store: Store, date: string): (d: Option<Day>)
    ensures d.Some? <==> DayKey(date) in store && store[DayKey(date)].Parsed? && store[DayKey(date)].value.DayVal?
    ensures d.Some? ==> store[DayKey(date)] == Parsed(DayVal(d.value))
  {
    match LoadJson(store, DayKey(date), Falsy)
    case DayVal(d) => Some(d)
    case _ => None
  }

  /** `loadJson(template key, null)` followed by the `!template` test: the
      saved template, if there is one. An empty template is still a template. */
  function StoredTemplate(store: Store): (t: Option<seq<TemplateEntry>>)
    ensures t.Some? <==> TEMPLATE_KEY in store && store[TEMPLATE_KEY].Parsed? && store[TEMPLATE_KEY].value.TemplateVal?
    ensures t.Some? ==> store[TEMPLATE_KEY] == Parsed(TemplateVal(t.value))
  {
    match LoadJson(store, TEMPLATE_KEY, Falsy)
    case TemplateVal(t) => Some(t)
    case _ => None
  }

  /** Writes `v` under `key` only when nothing (or the empty string) is
      stored there. */
  function SeedKey(store: Store, key: string, v: Value): Store {
    if Unset(store, key) then SaveJson(store, key, v) else store
  }

  /** The store after `ensureDefaults`: the targets and library keys hold
      the built-in values where they were unset and are kept otherwise. */
  function Seeded(store: Store): (s: Store)
    ensures DEFAULTS_KEY in s && LIBRARY_KEY in s
    ensures s[DEFAULTS_KEY] == if Unset(store, DEFAULTS_KEY) then Parsed(TargetsVal(DEFAULT_TARGETS)) else store[DEFAULTS_KEY]
    ensures s[LIBRARY_KEY] == if Unset(store, LIBRARY_KEY) then Parsed(LibraryVal(DEFAULT_LIBRARY)) else store[LIBRARY_KEY]
    ensures s.Keys == store.Keys + {DEFAULTS_KEY, LIBRARY_KEY}
    ensures forall k :: k in store && k != DEFAULTS_KEY && k != LIBRARY_KEY ==> s[k] == store[k]
  {
    SeedKey(SeedKey(store, DEFAULTS_KEY, TargetsVal(DEFAULT_TARGETS)), LIBRARY_KEY, LibraryVal(DEFAULT_LIBRARY))
  }

  /** Seeding touches no key but the targets and library keys, and leaves
      those alone when they hold anything but the empty string, even text
      that does not parse. */
  lemma SeedingWritesOnlyUnsetKeys(store: Store, key: string)
    ensures key in store && !Unset(store, key) ==> key in Seeded(store) && Seeded(store)[key] == store[key]
    ensures key != DEFAULTS_KEY && key != LIBRARY_KEY ==>
      (key in Seeded(store) <==> key in store) && (key in store ==> Seeded(store)[key] == store[key])
    ensures Unset(store, DEFAULTS_KEY) ==> Seeded(store)[DEFAULTS_KEY] == Parsed(TargetsVal(DEFAULT_TARGETS))
    ensures Unset(store, LIBRARY_KEY) ==> Seeded(store)[LIBRARY_KEY] == Parsed(LibraryVal(DEFAULT_LIBRARY))
  {
  }

  /** Seeding never changes what the targets and library read as, so the
      first run and every later run see the same values; and seeding twice
      is seeding once. */
  lemma SeedingIsStable(store: Store)
    ensures LoadTargets(Seeded(store)) == LoadTargets(store)
    ensures LoadLibrary(Seeded(store)) == LoadLibrary(store)
    ensures Seeded(Seeded(store)) == Seeded(store)
  {
  }

  /** Every day kept in the store has distinct ids, all below `n`: the ids a
      counter starting at `n` hands out are new to every stored day. */
  predicate StoredIdsBelow(store: Store, n: Id) {
    forall k :: k in store && store[k].Parsed? && store[k].value.DayVal? ==>
      IdsBelow(store[k].value.day.items, n) && DistinctIds(store[k].value.day.items)
  }

  /** A larger bound still bounds the stored ids; writing a value that is not
      a day, or a day whose ids are distinct and below the bound, keeps them
      bounded. */
  lemma StoredIdsBelowKept(store: Store, n: Id, m: Id, key: string, v: Value)
    requires StoredIdsBelow(store, n) && n <= m
    requires v.DayVal? ==> IdsBelow(v.day.items, m) && DistinctIds(v.day.items)
    ensures StoredIdsBelow(store, m)
    ensures StoredIdsBelow(SaveJson(store, key, v), m)
  {
    var s := SaveJson(store, key, v);
    forall k | k in s && s[k].Parsed? && s[k].value.DayVal?
      ensures IdsBelow(s[k].value.day.items, m) && DistinctIds(s[k].value.day.items)
    {
      if k != key {
        assert IdsBelow(store[k].value.day.items, n);
      }
    }
  }

  /** Seeding writes no day, so it keeps the stored ids bounded. */
  lemma SeededKeepsStoredIds(store: Store, n: Id)
    requires StoredIdsBelow(store, n)
    ensures StoredIdsBelow(Seeded(store), n)
  {
    var s := Seeded(store);
    forall k | k in s && s[k].Parsed? && s[k].value.DayVal?
      ensures IdsBelow(s[k].value.day.items, n) && DistinctIds(s[k].value.day.items)
    {
      if k == DEFAULTS_KEY || k == LIBRARY_KEY {
        assert !Unset(store, k) && s[k] == store[k];
      }
    }
  }
}
