# DietPlan ledger core in Dafny

This project models the data core of DietPlan (`app.js`), a single-page daily nutrition ledger. A user keeps a **library** of foods, each with calories, protein, carbohydrates and fat per serving. Each calendar **day** gets a list of lines copied from that library. Every line has planned and consumed servings, and the page reports consumed totals against daily **targets**. One **template** (a day's composition without consumption) can be saved and loaded back. Everything is kept in the browser's local storage under keys with the prefix `dt_v1_`.

The model has these modules:

- `Numbers`: `clamp`, `round1` and `round0`, over exact reals.
- `Names`: the form's `trim` and the case-insensitive name comparison.
- `Food`: the records, the built-in targets and seed library, and `makeItemFromLibraryEntry` / `makeNewDayFromLibrary`.
- `Storage`: the store as a map from key to stored text. Each value is either the empty string, text that does not parse, or a parsed value. The module holds the keys, `loadJson`/`saveJson`, typed readers and the seeding done by `ensureDefaults`.
- `Ledger`: `find` by id and the rule each item-table handler applies to the line it finds. It also holds `filter` removal and the line a submitted add-item form creates.
- `Metrics`: `calcConsumedTotals` as a loop proved against a recursive sum, and the progress-percent formula.
- `Library`: the case-insensitive name lookup and the rule "add to the library only if the name is new".
- `Templates`: the snapshot the save-template handler stores and the lines the load-template handler rebuilds.
- `App`: class `Session`, which is the page's `state` object plus the store and a fresh-id counter. Each handler is a method, and the handlers that ask for confirmation are modelled as the branch taken once the user confirms.

The invariant of a line is `0 <= consumed <= planned` (`Food.WellFormed`). Every item-table handler, removal and reset keeps it. Adding a line by hand keeps it only when the typed plan is non-negative. Loading a template keeps it only when no stored plan is negative. Neither of those two handlers clamps the plan.

Ids are handed out by a counter. `Session.Valid` keeps every id in the day on screen and in every stored day below the counter, and no day holds an id twice. Every handler keeps it, so each id the counter hands out is new.

Behaviour worth noting:

- "Half eaten" and "fully eaten" set consumption from the plan (half of it rounded, or all of it). No handler sets consumption to an arbitrary value.
- Neither the add-item handler nor the template loader clamps the plan. The template loader turns a stored 0 into 1.
- Reset rebuilds the day from the library held in memory, not from the stored library.
- `ensureDefaults` writes a key only when nothing, or the empty string, is stored there. A key holding unparsable text is left as it is, and every read of it then falls back to the built-in value.

## Model

| member | source | states |
|---|---|---|
| Numbers.Clamp | app.js:36 | the result lies in [lo, hi], equals v inside the range and the nearer bound outside it |
| Numbers.Round0 | app.js:38 | the result is an integer within one half of n |
| Numbers.Round1 | app.js:37 | the result is within 0.05 of n, has one decimal place, and is non-negative for non-negative n |
| Numbers.Round1Idempotent | app.js:37 | rounding an already rounded quantity changes nothing |
| Numbers.HalfRoundedWithin | app.js:296 | half of a non-negative plan, rounded to one decimal, lies between 0 and the plan |
| Names.Trim | app.js:371 | the result is a contiguous part of the name whose cut-off prefix and suffix are ECMAScript white space and which neither starts nor ends with white space |
| Names.TrimIdempotent | app.js:371 | trimming a trimmed name changes nothing |
| Names.Lower | app.js:384 | lower-casing keeps the length and maps each ASCII capital to its small letter, leaving other characters alone |
| Names.LowerIdempotent | app.js:384 | lower-casing twice is lower-casing once |
| Names.CaseVariantsAreSameName | app.js:384 | names that agree position by position up to ASCII capital/small pairs compare equal |
| Food.MakeItem | app.js:69-80 | a new line copies the entry's name and macros under the given id, with 1 serving planned, none eaten, and is well formed |
| Food.MakeItems | app.js:85 | one line per library entry, in order, the i-th built from the i-th entry with id firstId + i |
| Food.NewDay | app.js:82-87 | the day carries the date and one line per entry, the i-th built from the i-th entry with id firstId + i; its ids are distinct and below firstId + the library's length |
| Food.NewDayFromLibrary | app.js:82-87 | a new day carries the date, one copy of each entry (planned 1, consumed 0), is well formed and has distinct ids |
| Storage.DayKeyInjective | app.js:9 | different dates have different day keys |
| Storage.DayKeyNotFixed | app.js:4-10 | no day key equals the library, defaults, template or theme key |
| Storage.LoadJson | app.js:53-62 | the result is the stored parsed value when there is one, else the fallback (missing key, empty text or unparsable text) |
| Storage.LoadAfterSave | app.js:53-66 | after saving v under a key, loading that key gives v and loading any other key is unaffected |
| Storage.LoadTargets | app.js:138 | the targets read are the stored ones when the key holds parsed targets, and the built-in ones otherwise, in particular when the key is unset |
| Storage.LoadLibrary | app.js:100 | the library read is the stored one when the key holds a parsed library, and the seed list otherwise, in particular when the key is unset |
| Storage.StoredDay | app.js:97-99 | a day is found exactly when its key holds a parsed day, and it is that day |
| Storage.StoredTemplate | app.js:418-419 | a template is found exactly when its key holds a parsed template (an empty one included), and it is that template |
| Storage.Seeded | app.js:89-94 | the seeded store has both the targets and the library key; each holds the built-in value if it was unset and its old text otherwise; every other key is unchanged |
| Storage.SeedingWritesOnlyUnsetKeys | app.js:89-94 | seeding writes the built-in targets and library only under their keys and only where nothing or the empty string is stored; every other key and every non-empty value is kept |
| Storage.SeedingIsStable | app.js:89-94 | seeding does not change what targets and library read as, and seeding twice equals seeding once |
| Storage.StoredIdsBelowKept | app.js:64-66 | saving a value that is not a day, or a day with distinct ids below the bound, keeps every stored day's ids distinct and below the bound, also under a larger bound |
| Storage.SeededKeepsStoredIds | app.js:89-94 | seeding keeps every stored day's ids distinct and below the bound |
| Ledger.FindIndex | app.js:284 | the index found is the first line with that id, and none is found exactly when no line has it |
| Ledger.HalfEaten | app.js:296 | consumed becomes round1(plan * 0.5), half the plan to within 0.05; the plan and the food are unchanged; a non-negative plan gives a well-formed line |
| Ledger.FullEaten | app.js:302 | consumed becomes the plan; nothing else changes; a non-negative plan gives a well-formed line |
| Ledger.ToggleEaten | app.js:349-350 | ticked sets consumed to the plan, cleared sets it to 0; nothing else changes |
| Ledger.ClampConsumed | app.js:309-311 | consumed is lowered to the plan when above it, never raised, and otherwise kept |
| Ledger.SetPlanned | app.js:332-335 | the plan becomes max(0, value) and consumed is clamped down to it, so a line with non-negative consumption ends well formed |
| Ledger.StepDown | app.js:308-311 | the plan becomes max(0, round1(plan - 0.5)), which is below the old plan or 0, and consumed is clamped down to it |
| Ledger.StepUp | app.js:317 | the plan becomes round1(plan + 0.5), a growth of between 0.45 and 0.55; consumed is untouched, and well-formedness is kept |
| Ledger.RulesKeepWellFormed | app.js:296-350 | every line rule maps a well-formed line to a well-formed line |
| Ledger.UpdateFirst | app.js:284-285 | an unknown id leaves the lines unchanged; otherwise only the first line with that id is replaced by the rule's result |
| Ledger.UpdateFirstKeepsIds | app.js:284-285 | a rule that keeps a line's id keeps the day's ids distinct and below the bound |
| Ledger.UpdateFirstKeepsDay | app.js:284-285 | a rule that keeps lines well formed keeps the day well formed, and lines with other ids are unchanged |
| Ledger.RemoveId | app.js:289 | the result holds exactly the lines whose id differs, and equals the input when no line has the id |
| Ledger.RemoveIdAppend | app.js:289 | removal distributes over concatenation, so the surviving lines keep their order |
| Ledger.RemoveIdKeepsDay | app.js:289 | removal keeps a well-formed day well formed |
| Ledger.RemoveIdKeepsIds | app.js:289 | removal keeps the day's ids distinct and below the bound |
| Ledger.FormEntry | app.js:370-376 | the entry has the trimmed name and each typed macro, 0 for an empty field |
| Ledger.ManualItem | app.js:370-378 | the added line has the trimmed name and the typed macros (0 for an empty field), nothing eaten and the typed plan (1 if the field is empty), and is well formed exactly when that plan is non-negative |
| Metrics.CalcConsumedTotals | app.js:112-125 | the left-to-right fold from zero equals the sum of every line's macros times its consumed servings, with the planned servings summed alongside |
| Metrics.SumAppend | app.js:113-124 | totals of concatenated lines are the sum of the parts' totals |
| Metrics.EmptyDayTotalsZero | app.js:123 | a day without lines totals zero everywhere |
| Metrics.PlannedSumIgnoresConsumption | app.js:120 | the planned-servings total depends only on the lines' plans |
| Metrics.SumNonNegative | app.js:115-119 | non-negative macros and consumption give non-negative consumed totals |
| Metrics.SumReplace | app.js:113-124 | replacing one line changes the totals exactly by the difference of the two lines' contributions |
| Metrics.OneLineExample | app.js:112-125 | one line of 100/16/1/3 with 2 planned and 1 eaten totals 100/16/1/3 and 2 planned, and shows 5% of a 2000 kcal target |
| Metrics.Percent | app.js:210 | the percent always lies in [0, 140]; it is 0 when the target is not positive; otherwise it is value/target*100 when that is in range, else 0 below and 140 above |
| Metrics.PercentFullExactlyAtTarget | app.js:210 | with a positive target the percent is 100 exactly when the value equals the target |
| Metrics.PercentMonotone | app.js:210 | a larger value never shows a smaller percent |
| Metrics.Progress | app.js:201-210 | each of the four fields is the percent of that consumed total against its target, so it lies in [0, 140] and is 0 for a non-positive target |
| Library.NameTaken | app.js:384 | true exactly when some library entry has the same name up to case |
| Library.AddIfNew | app.js:384-388 | existing entries are kept as they are, in order; the entry is appended exactly when its name is new; the name is present afterwards |
| Library.AddIfNewKeepsUnique | app.js:384-388 | a library without case-insensitive duplicates stays without them |
| Library.CaseVariantAddedOnce | app.js:384-388 | adding two foods whose names differ only in case to a library with neither yields exactly one new entry, the first |
| Templates.TemplateOf | app.js:402-409 | one template line per day line, in order, keeping name, macros and plan and dropping id and consumption |
| Templates.RestoredPlan | app.js:426 | a stored plan is kept, except that 0 becomes 1 |
| Templates.ItemsFromTemplate | app.js:424-428 | one line per template line, in order, the i-th restored with id firstId + i |
| Templates.TemplateRoundTrip | app.js:402-428 | saving then loading gives the same foods in the same order with the same plans (0 becoming 1), nothing eaten and distinct ids |
| Templates.LoadedTemplateWellFormed | app.js:424-428 | the loaded lines are well formed exactly when no stored plan is negative |
| App.LoadedDay | app.js:96-105 | the stored day when there is one; otherwise a day for the date with one line per stored library entry, planned 1, none eaten, ids from firstId on, well formed; with stored ids below firstId its ids are distinct and below the counter after the load |
| App.StoreAfterLoad | app.js:96-105 | afterwards the date's key holds the loaded day; no other key changes; a store that already holds the day is unchanged |
| App.LoadKeepsIdsBelow | app.js:96-105 | if stored ids are below firstId, the loaded day's and every stored day's ids stay distinct and below the counter advanced by the ids the load drew |
| App.LoadDayIdempotent | app.js:96-105 | after one load the day is stored; a second load returns the same day with the same ids and writes nothing; no other key is touched |
| App.CreatedDayWellFormed | app.js:99-102 | a day created on load has one line per stored library entry, is well formed and has distinct ids |
| App.EatingKeepsPlannedTotal | app.js:296-350 | marking half or fully eaten, or ticking or clearing the box, never changes the planned-servings total |
| App.PlusKeepsConsumedTotals | app.js:317 | the plus button never changes the consumed totals |
| App.Session.constructor | app.js:136-142 | given a first id above every stored id, after start-up the id invariant holds, the store is seeded and holds today's day, and targets, library and day are what the seeded store reads as |
| App.Session.SaveJson | app.js:64-66 | the key now holds the value; nothing else changes; stored ids stay below the counter unless a day with larger or repeated ids is written |
| App.Session.EnsureDefaults | app.js:89-94 | the new store is the seeded old store, and stored ids stay below the counter |
| App.Session.LoadDay | app.js:96-105 | returns the stored day, or builds one from the stored library with fresh ids and stores it; afterwards the store holds the returned day, and the counter has advanced past every id in it |
| App.Session.SaveDay | app.js:107-109 | the day is stored under its own date's key, keeping the id invariant |
| App.Session.ShowDate | app.js:265-277 | an empty date changes nothing; otherwise the date becomes current and its day is loaded as by LoadDay |
| App.Session.UpdateLine | app.js:280-285 | the rule is applied to the first line with the id and the day saved; an unknown id changes and saves nothing; a rule that keeps lines well formed keeps the day well formed, and one that keeps ids keeps the id invariant |
| App.Session.Remove | app.js:284-292 | an unknown id changes and saves nothing; otherwise every line with the id is removed and the day saved; well-formedness is kept |
| App.Session.MarkHalf | app.js:295-300 | the first line with the id becomes half eaten and the day is saved; an unknown id changes nothing; well-formedness is kept |
| App.Session.MarkFull | app.js:301-306 | the first line with the id becomes fully eaten and the day is saved; an unknown id changes nothing; well-formedness is kept |
| App.Session.Minus | app.js:307-315 | the first line with the id is stepped down and the day saved; an unknown id changes nothing; well-formedness is kept |
| App.Session.Plus | app.js:316-321 | the first line with the id is stepped up and the day saved; an unknown id changes nothing; well-formedness is kept |
| App.Session.InputPlanned | app.js:324-339 | the first line with the id gets plan max(0, value) with consumption clamped, and the day is saved; an unknown id changes nothing |
| App.Session.CheckEaten | app.js:341-354 | the first line with the id is toggled eaten or not and the day saved; an unknown id changes nothing |
| App.Session.AddManual | app.js:367-389 | the form's line is always appended and the day saved, under an id that no line of the day and no stored day holds, keeping the id invariant; the library gains the entry, and is saved, only if its name is new up to case |
| App.Session.SaveTemplate | app.js:401-410 | the template key now holds the snapshot of the day's lines and reads back as it |
| App.Session.LoadTemplate | app.js:417-432 | with no stored template nothing changes and false is returned; otherwise the lines are replaced by the restored template with fresh ids and the day is saved; the id invariant is kept |
| App.Session.ResetDay | app.js:435-441 | the day becomes a fresh day of the in-memory library for the current date, saved, well formed, with distinct ids, keeping the id invariant |
| App.Session.CurrentProgress | app.js:192-210 | the progress percents are those of the current day's consumed totals against the targets |

## Left out

- Rendering and DOM access (`qs`/`qsa`, `renderTargets`, `renderItemsTable`, `renderTotals`' writes, `renderDate`, `renderAll`) are presentation only. `Round0` and `Round1` are modelled, but the display strings they feed are not.
- Event wiring, `confirm`/`alert`, `setTimeout` button feedback and the Enter-key handler are interface plumbing. A cancelled confirmation simply leaves everything unchanged. `LoadTemplate` returns `false` where the page shows its alert.
- The theme (`setTheme`, the theme read in `loadAllState`, the toggle) is a style class plus an opaque stored string.
- The targets handlers (`onChangeTargets`, save targets, reset targets) are out of scope. Targets are only loaded at start-up and read by `CurrentProgress`.
- `JSON.parse`, `JSON.stringify` and `localStorage` are abstracted as a map from key to stored text, and the `console.error` on a parse failure is dropped.
- Storage.LoadTargets, Storage.LoadLibrary, Storage.StoredDay, Storage.StoredTemplate: a parsed value of the wrong kind for its key is read as the built-in value or as absent. The page would use such a value as it is and fail later.
- Ids: `crypto.randomUUID` and its `Date.now`/`Math.random` fallback are replaced by the session's counter `nextId`. The uniqueness a random UUID gives with overwhelming probability becomes the requirement that the first id exceeds every id already stored, which `Session.Valid` then keeps.
- Dates: `formatDateInputValue` and `parseDateFromInput` depend on the JavaScript `Date` object. Date strings are opaque, and "today" is a parameter.
- Floating point: quantities are exact reals. This drops the `Number.EPSILON` nudge in `round1`, `NaN`, and the `Number(...)` coercions of already-numeric fields. The `|| 0` in the totals is the identity on numbers.
- Form fields are taken as already numeric. An empty add-item field is `None`, read as 0 for a macro and 1 for the plan. An empty planned input in the table is passed to `InputPlanned` as 0, which is what `Number(value || 0)` gives. Text that does not parse as a number is not modelled.
- Names.Lower: case folding covers ASCII letters only. `toLowerCase` folds all of Unicode.
- Items are objects changed in place in the source. Here a line is replaced inside the day's sequence. No two lines share an object in the source, so nothing observable is lost.
