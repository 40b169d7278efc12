/**
 * The master-item store: the stored catalogue merged with the built-in one
 * on start, a category and keyword filter, and add, update and remove.
 * The built-in catalogue is a parameter; what was read from storage is an
 * Option (None when nothing was stored or it could not be parsed).
 */
module MasterItems {
  import opened Common
  import opened ClinicTypes

  /** CATEGORY_MAP: the filter keys of the settings tabs and the category names they stand for. */
  const CategoryMap: map<string, string> := map[
    "examination" := "検査",
    "vaccine" := "予防",
    "medicine" := "薬剤",
    "consultation" := "診察",
    "serviceType" := "診療内容",
    "procedure" := "処置",
    "hospitalization" := "入院",
    "staff" := "スタッフ",
    "insurance" := "保険",
    "cage" := "ケージ",
    "trimming_course" := "トリミングコース",
    "trimming_option" := "トリミングオプション"]

  /** `Partial<MasterItem>`: each present field, the id included, overrides the item's. */
  datatype ItemPatch = ItemPatch(
    id: Option<string>,
    code: Option<string>,
    name: Option<string>,
    category: Option<string>,
    price: Option<int>,
    status: Option<string>,
    description: Option<string>,
    inventoryId: Option<string>,
    defaultQuantity: Option<int>)

  const NoChange := ItemPatch(None, None, None, None, None, None, None, None, None)

  /** `Omit<MasterItem, "id">`: what the add form supplies. */
  datatype NewItem = NewItem(
    code: string,
    name: string,
    category: Option<string>,
    price: int,
    status: string,
    description: Option<string>,
    inventoryId: Option<string>,
    defaultQuantity: Option<int>)

  /** `{...item, ...patch}`. */
  function Merge(item: MasterItem, patch: ItemPatch): (r: MasterItem)
    ensures patch == NoChange ==> r == item
    ensures patch.id.Some? ==> r.id == patch.id.value
    ensures patch.id.None? ==> r.id == item.id
    ensures patch.price.Some? ==> r.price == patch.price.value
  {
    MasterItem(
      patch.id.GetOr(item.id), patch.code.GetOr(item.code), patch.name.GetOr(item.name),
      if patch.category.Some? then patch.category else item.category,
      patch.price.GetOr(item.price), patch.status.GetOr(item.status),
      if patch.description.Some? then patch.description else item.description,
      if patch.inventoryId.Some? then patch.inventoryId else item.inventoryId,
      if patch.defaultQuantity.Some? then patch.defaultQuantity else item.defaultQuantity)
  }

  /** Some item of `items` has this id. */
  predicate HasId(items: seq<MasterItem>, id: string) {
    exists i | 0 <= i < |items| :: items[i].id == id
  }

  /**
   * The merge's result: the stored items in order, then the built-in items
   * whose id was not stored, and nothing else.
   */
  function Merged(parsed: seq<MasterItem>, initial: seq<MasterItem>): (r: seq<MasterItem>)
    ensures |parsed| <= |r| <= |parsed| + |initial| && r[..|parsed|] == parsed
    ensures forall x :: x in r[|parsed|..] <==> x in initial && !HasId(parsed, x.id)
  {
    var extra := Filter(initial, (x: MasterItem) => !HasId(parsed, x.id));
    assert (parsed + extra)[|parsed|..] == extra;
    parsed + extra
  }

  /** After the merge every built-in id is present, and no stored item was lost, moved or changed. */
  lemma MergeKeepsStoredAndAddsMissing(parsed: seq<MasterItem>, initial: seq<MasterItem>, x: MasterItem)
    requires x in initial
    ensures Merged(parsed, initial)[..|parsed|] == parsed
    ensures HasId(Merged(parsed, initial), x.id)
  {
    var m := Merged(parsed, initial);
    if HasId(parsed, x.id) {
      var i :| 0 <= i < |parsed| && parsed[i].id == x.id;
      assert m[i] == parsed[i];
    } else {
      var extra := Filter(initial, (y: MasterItem) => !HasId(parsed, y.id));
      assert x in extra;
      var k :| 0 <= k < |extra| && extra[k] == x;
      assert m[|parsed| + k] == x;
    }
  }

  /** Merging again changes nothing: the merged list already holds every built-in id. */
  lemma MergeIdempotent(parsed: seq<MasterItem>, initial: seq<MasterItem>)
    ensures Merged(Merged(parsed, initial), initial) == Merged(parsed, initial)
  {
    var m := Merged(parsed, initial);
    forall i | 0 <= i < |initial|
      ensures HasId(m, initial[i].id)
    {
      MergeKeepsStoredAndAddsMissing(parsed, initial, initial[i]);
    }
    FilterNoneLeft(initial, m);
  }

  lemma {:induction false} FilterNoneLeft(initial: seq<MasterItem>, m: seq<MasterItem>)
    requires forall i | 0 <= i < |initial| :: HasId(m, initial[i].id)
    ensures Filter(initial, (y: MasterItem) => !HasId(m, y.id)) == []
  {
    if initial != [] {
      FilterNoneLeft(initial[1..], m);
    }
  }

  /** filteredItems' category test: a mapped key stands for its category name, an unmapped one for itself. */
  function TargetCategory(key: string): (c: string)
    ensures key in CategoryMap ==> c == CategoryMap[key]
    ensures key !in CategoryMap ==> c == key
  {
    if key in CategoryMap && CategoryMap[key] != "" then CategoryMap[key] else key
  }

  /** The keyword test: the lower-cased term occurs in the name, the code or a non-empty category. */
  predicate MatchesTerm(item: MasterItem, term: string) {
    || ContainsIgnoringCase(item.name, term)
    || ContainsIgnoringCase(item.code, term)
    || (item.category.Some? && item.category.value != "" && ContainsIgnoringCase(item.category.value, term))
  }

  /** The category filter, skipped for no key and for "all". */
  function ByCategory(items: seq<MasterItem>, key: Option<string>): (r: seq<MasterItem>)
    ensures key.None? || key.value in {"", "all"} ==> r == items
    ensures key.Some? && key.value !in {"", "all"} ==>
      forall x :: x in r <==> x in items && x.category == Some(TargetCategory(key.value))
    ensures IsSubsequence(r, items)
  {
    if key.None? || key.value == "" || key.value == "all" then
      SubsequenceSelf(items);
      items
    else
      FilterIsSubsequence(items, (x: MasterItem) => x.category == Some(TargetCategory(key.value)));
      Filter(items, (x: MasterItem) => x.category == Some(TargetCategory(key.value)))
  }

  /** An item passes the category filter: no key, "" and "all" pass everything, another key its target category. */
  predicate InCategory(x: MasterItem, key: Option<string>) {
    key.None? || key.value == "" || key.value == "all" || x.category == Some(TargetCategory(key.value))
  }

  /** An item passes the keyword filter: no keyword or "" passes everything, another keyword its matches. */
  predicate ShownForTerm(x: MasterItem, term: Option<string>) {
    term.None? || term.value == "" || MatchesTerm(x, term.value)
  }

  /** The keyword filter, skipped for no keyword. */
  function ByTerm(items: seq<MasterItem>, term: Option<string>): (r: seq<MasterItem>)
    ensures term.None? || term.value == "" ==> r == items
    ensures term.Some? && term.value != "" ==> forall x :: x in r <==> x in items && MatchesTerm(x, term.value)
    ensures IsSubsequence(r, items)
  {
    if term.None? || term.value == "" then
      SubsequenceSelf(items);
      items
    else
      FilterIsSubsequence(items, (x: MasterItem) => MatchesTerm(x, term.value));
      Filter(items, (x: MasterItem) => MatchesTerm(x, term.value))
  }

  /** The list with the item of that id patched; every other item as it was. */
  function Updated(items: seq<MasterItem>, id: string, patch: ItemPatch): (r: seq<MasterItem>)
    ensures |r| == |items|
    ensures forall i | 0 <= i < |items| :: r[i] == if items[i].id == id then Merge(items[i], patch) else items[i]
  {
    seq(|items|, i requires 0 <= i < |items| => if items[i].id == id then Merge(items[i], patch) else items[i])
  }

  /** The list without the items of that id. */
  function Removed(items: seq<MasterItem>, id: string): (r: seq<MasterItem>)
    ensures !HasId(r, id)
    ensures IsSubsequence(r, items)
    ensures forall x :: x in items && x.id != id ==> x in r
  {
    var r := Filter(items, (x: MasterItem) => x.id != id);
    FilterIsSubsequence(items, (x: MasterItem) => x.id != id);
    assert forall i | 0 <= i < |r| :: r[i] in r;
    r
  }

  /** Removing an item that was just added, under a fresh id, restores the list. */
  lemma RemoveUndoesAdd(items: seq<MasterItem>, added: MasterItem)
    requires !HasId(items, added.id)
    ensures Removed(items + [added], added.id) == items
  {
    FilterConcat(items, [added], (x: MasterItem) => x.id != added.id);
    FilterKeepsAll(items, (x: MasterItem) => x.id != added.id);
  }

  /** An update that changes no id leaves the set of ids, and the item order, as it was. */
  lemma UpdateKeepsIds(items: seq<MasterItem>, id: string, patch: ItemPatch)
    requires patch.id.None?
    ensures forall i | 0 <= i < |items| :: Updated(items, id, patch)[i].id == items[i].id
  {
  }

  class MasterItemStore {
    var items: seq<MasterItem>

    /** The initial state: the stored list merged with the built-in one, or the built-in one alone. */
    constructor (stored: Option<seq<MasterItem>>, initial: seq<MasterItem>)
      ensures stored.None? ==> items == initial
      ensures stored.Some? ==> items == Merged(stored.value, initial)
    {
      var start := initial;
      if stored.Some? {
        start := MergeInitial(stored.value, initial);
      }
      items := start;
    }

    /**
     * filteredItems: the category filter, then the keyword filter.  An
     * item is shown exactly when it is in the catalogue and passes both,
     * and the shown items keep the catalogue's order.
     */
    function FilteredItems(category: Option<string>, term: Option<string>): (r: seq<MasterItem>)
      reads this
      ensures forall x :: x in r <==> x in items && InCategory(x, category) && ShownForTerm(x, term)
      ensures IsSubsequence(r, items)
      ensures category.None? && term.None? ==> r == items
    {
      var byCategory := ByCategory(items, category);
      var r := ByTerm(byCategory, term);
      SubsequenceTransitive(r, byCategory, items);
      r
    }

    /** add: the new item, under the id "tm_" + the clock in milliseconds, goes at the end. */
    method Add(item: NewItem, now: nat) returns (added: MasterItem)
      modifies this
      ensures added.id == "tm_" + NatToString(now)
      ensures added == MasterItem(added.id, item.code, item.name, item.category, item.price, item.status,
                                  item.description, item.inventoryId, item.defaultQuantity)
      ensures items == old(items) + [added]
    {
      added := MasterItem("tm_" + NatToString(now), item.code, item.name, item.category, item.price,
                          item.status, item.description, item.inventoryId, item.defaultQuantity);
      items := items + [added];
    }

    /** update: the fields given replace those of the item with that id. */
    method Update(id: string, patch: ItemPatch)
      modifies this
      ensures items == Updated(old(items), id, patch)
    {
      items := Updated(items, id, patch);
    }

    /** remove: every item with that id goes. */
    method Remove(id: string)
      modifies this
      ensures items == Removed(old(items), id)
    {
      items := Removed(items, id);
    }
  }

  lemma MergeStep(parsed: seq<MasterItem>, initial: seq<MasterItem>, i: nat)
    requires i < |initial|
    ensures Filter(initial[..i + 1], (x: MasterItem) => !HasId(parsed, x.id))
         == Filter(initial[..i], (x: MasterItem) => !HasId(parsed, x.id))
            + (if !HasId(parsed, initial[i].id) then [initial[i]] else [])
  {
    assert initial[..i + 1] == initial[..i] + [initial[i]];
    FilterConcat(initial[..i], [initial[i]], (x: MasterItem) => !HasId(parsed, x.id));
  }

  /** The start-up merge loop: each built-in item whose id the stored list lacks is pushed in turn. */
  method MergeInitial(parsed: seq<MasterItem>, initial: seq<MasterItem>) returns (merged: seq<MasterItem>)
    ensures merged == Merged(parsed, initial)
  {
    merged := parsed;
    var i := 0;
    while i < |initial|
      invariant 0 <= i <= |initial|
      invariant merged == parsed + Filter(initial[..i], (x: MasterItem) => !HasId(parsed, x.id))
    {
      MergeStep(parsed, initial, i);
      if !HasId(parsed, initial[i].id) {
        merged := merged + [initial[i]];
      }
      i := i + 1;
    }
    assert initial[..i] == initial;
  }
}
