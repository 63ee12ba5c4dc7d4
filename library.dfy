/**
 * The food library: the case-insensitive name lookup and the rule that a
 * manually added food joins the library only when its name is new (app.js,
 * the add-item handler).
 */
module Library {
  import opened Names
  import opened Food

  /** `library.some((x) => x.name.toLowerCase() === name.toLowerCase())`. */
  function NameTaken(library: seq<Entry>, name: string): (b: bool)
    ensures b <==> exists i :: 0 <= i < |library| && SameName(library[i].name, name)
  {
    if library == [] then false
    else SameName(library[0].name, name) || NameTaken(library[1..], name)
  }

  /** The library after a manual add of `e`. */
  function AddIfNew(library: seq<Entry>, e: Entry): (r: seq<Entry>)
    ensures |library| <= |r| <= |library| + 1
    ensures r[..|library|] == library
    ensures |r| == |library| + 1 <==> !NameTaken(library, e.name)
    ensures |r| == |library| + 1 ==> r[|library|] == e
    ensures NameTaken(r, e.name)
  {
    if NameTaken(library, e.name) then library
    else
      var r := library + [e];
      assert SameName(r[|library|].name, e.name);
      r
  }

  /** No two entries share a name up to case. */
  predicate UniqueNames(library: seq<Entry>) {
    forall i, j :: 0 <= i < j < |library| ==> !SameName(library[i].name, library[j].name)
  }

  /** Adding keeps the names unique. */
  lemma AddIfNewKeepsUnique(library: seq<Entry>, e: Entry)
    requires UniqueNames(library)
    ensures UniqueNames(AddIfNew(library, e))
  {
    var r := AddIfNew(library, e);
    if |r| == |library| + 1 {
      forall i, j | 0 <= i < j < |r| ensures !SameName(r[i].name, r[j].name) {
        if j == |library| {
          assert r[i] == library[i] && r[j] == e;
          assert !NameTaken(library, e.name);
        } else {
          assert r[i] == library[i] && r[j] == library[j];
        }
      }
    }
  }

  /** Two foods whose names differ only in case, added one after the other
      to a library that has neither, leave exactly one new entry: the first. */
  lemma CaseVariantAddedOnce(library: seq<Entry>, e1: Entry, e2: Entry)
    requires !NameTaken(library, e1.name)
    requires SameName(e1.name, e2.name)
    ensures AddIfNew(AddIfNew(library, e1), e2) == library + [e1]
  {
    var r := library + [e1];
    assert AddIfNew(library, e1) == r;
    assert SameName(r[|library|].name, e2.name);
  }
}
