/** The shopping list as a value: its entries, the searches the screen runs
    over them, and what each of the screen's operations makes of the list.
    The class in ContentView performs these operations in place and is proved
    to agree with the functions here; the lemmas here say what the operations
    mean. */
module Items {
  import opened Text

  /** A 128-bit universally unique identifier. */
  newtype Uuid = x: int | 0 <= x < 0x1_0000_0000_0000_0000_0000_0000_0000_0000

  /** One entry of the list. Only `amount` is ever changed in place. */
  datatype Item = Item(id: Uuid, name: string, amount: int)

  datatype Option<T> = None | Some(value: T)

  /** The two conditions the screen hands to `firstIndex(where:)`: the same id,
      or the same name up to letter case. */
  datatype Query = IdIs(id: Uuid) | NameIs(name: string)

  predicate Matches(item: Item, q: Query) {
    match q
    case IdIs(id) => item.id == id
    case NameIs(name) => Lower(item.name) == Lower(name)
  }

  /** The index of the first item that matches `q`, if any. */
  function FindFirst(items: seq<Item>, q: Query): (r: Option<nat>)
    ensures r.Some? ==> r.value < |items| && Matches(items[r.value], q)
    ensures r.Some? ==> forall j :: 0 <= j < r.value ==> !Matches(items[j], q)
    ensures r.None? <==> forall j :: 0 <= j < |items| ==> !Matches(items[j], q)
  {
    if items == [] then None
    else if Matches(items[0], q) then Some(0)
    else match FindFirst(items[1..], q)
      case None => None
      case Some(k) => Some(k + 1)
  }

  /** `items.firstIndex(where:)`: a linear search from the front. */
  method FirstIndex(items: seq<Item>, q: Query) returns (r: Option<nat>)
    ensures r == FindFirst(items, q)
  {
    var i := 0;
    while i < |items|
      invariant 0 <= i <= |items|
      invariant forall j :: 0 <= j < i ==> !Matches(items[j], q)
    {
      if Matches(items[i], q) {
        return Some(i);
      }
      i := i + 1;
    }
    return None;
  }

  // ---------------------------------------------------------------------------
  // The invariant the screen's operations keep

  predicate AmountsPositive(items: seq<Item>) {
    forall i :: 0 <= i < |items| ==> items[i].amount >= 1
  }

  /** No two items have the same name up to letter case. */
  predicate NamesUnique(items: seq<Item>) {
    forall i, j :: 0 <= i < j < |items| ==> Lower(items[i].name) != Lower(items[j].name)
  }

  predicate IdsUnique(items: seq<Item>) {
    forall i, j :: 0 <= i < j < |items| ==> items[i].id != items[j].id
  }

  predicate WellFormed(items: seq<Item>) {
    AmountsPositive(items) && NamesUnique(items) && IdsUnique(items)
  }

  /** `id` is not used by any item: what a newly generated UUID is. */
  predicate IsFreshId(items: seq<Item>, id: Uuid) {
    forall i :: 0 <= i < |items| ==> items[i].id != id
  }

  // ---------------------------------------------------------------------------
  // What the operations make of the list

  function RemoveAt(items: seq<Item>, k: nat): seq<Item>
    requires k < |items|
  {
    items[..k] + items[k + 1..]
  }

  function AddToAmount(items: seq<Item>, k: nat, delta: int): seq<Item>
    requires k < |items|
  {
    items[k := items[k].(amount := items[k].amount + delta)]
  }

  /** `addItem` with `name` in the text field and `freshId` as the new item's UUID. */
  function Added(items: seq<Item>, name: string, freshId: Uuid): seq<Item> {
    match FindFirst(items, NameIs(name))
    case Some(k) => AddToAmount(items, k, 1)
    case None => items + [Item(freshId, Capitalize(name), 1)]
  }

  /** `deleteItem` on an item with identifier `id`. */
  function Deleted(items: seq<Item>, id: Uuid): seq<Item> {
    match FindFirst(items, IdIs(id))
    case Some(k) => RemoveAt(items, k)
    case None => items
  }

  /** `addOne` on an item with identifier `id`. */
  function Incremented(items: seq<Item>, id: Uuid): seq<Item> {
    match FindFirst(items, IdIs(id))
    case Some(k) => AddToAmount(items, k, 1)
    case None => items
  }

  /** `substractOne` on an item with identifier `id`: the item goes once its
      amount reaches 0. */
  function Decremented(items: seq<Item>, id: Uuid): seq<Item> {
    match FindFirst(items, IdIs(id))
    case Some(k) => if items[k].amount - 1 == 0 then RemoveAt(items, k) else AddToAmount(items, k, -1)
    case None => items
  }

  /** True when `substractOne` on `id` meets an item of amount 1, which it then removes. */
  predicate ReachesZero(items: seq<Item>, id: Uuid): (r: bool)
    ensures r <==> exists k :: 0 <= k < |items| && items[k].id == id && items[k].amount == 1
                             && forall j :: 0 <= j < k ==> items[j].id != id
  {
    match FindFirst(items, IdIs(id))
    case Some(k) => items[k].amount - 1 == 0
    case None => false
  }

  // ---------------------------------------------------------------------------
  // addItem

  /** A name already on the list, up to letter case, raises the amount of the
      first such item by one; nothing else changes. */
  lemma AddedExistingName(items: seq<Item>, name: string, freshId: Uuid, k: nat)
    requires k < |items| && Lower(items[k].name) == Lower(name)
    requires forall j :: 0 <= j < k ==> Lower(items[j].name) != Lower(name)
    ensures var r := Added(items, name, freshId);
      && |r| == |items|
      && r[k] == Item(items[k].id, items[k].name, items[k].amount + 1)
      && forall j :: 0 <= j < |items| && j != k ==> r[j] == items[j]
  {
  }

  /** A name not on the list appends one new item, capitalized, with amount 1,
      after the unchanged old items. */
  lemma AddedNewName(items: seq<Item>, name: string, freshId: Uuid)
    requires forall j :: 0 <= j < |items| ==> Lower(items[j].name) != Lower(name)
    ensures var r := Added(items, name, freshId);
      && |r| == |items| + 1
      && r[..|items|] == items
      && r[|items|] == Item(freshId, Capitalize(name), 1)
  {
  }

  /** After `addItem` exactly one item carries the name, up to letter case. */
  lemma AddedNameOnce(items: seq<Item>, name: string, freshId: Uuid)
    requires WellFormed(items)
    requires FindFirst(items, NameIs(name)).None? ==> IsFreshId(items, freshId)
    ensures var r := Added(items, name, freshId);
      && FindFirst(r, NameIs(name)).Some?
      && forall i, j :: 0 <= i < j < |r| && Lower(r[i].name) == Lower(name) ==> Lower(r[j].name) != Lower(name)
  {
    AddedKeepsWellFormed(items, name, freshId);
    var r := Added(items, name, freshId);
    match FindFirst(items, NameIs(name))
    case Some(k) =>
      assert Matches(r[k], NameIs(name));
    case None =>
      LowerOfCapitalize(name);
      assert Matches(r[|items|], NameIs(name));
  }

  lemma AddedKeepsWellFormed(items: seq<Item>, name: string, freshId: Uuid)
    requires WellFormed(items)
    requires FindFirst(items, NameIs(name)).None? ==> IsFreshId(items, freshId)
    ensures WellFormed(Added(items, name, freshId))
  {
    if FindFirst(items, NameIs(name)).None? {
      LowerOfCapitalize(name);
      var r := Added(items, name, freshId);
      assert forall j :: 0 <= j < |items| ==> r[j] == items[j];
      assert Lower(r[|items|].name) == Lower(name);
    }
  }

  // ---------------------------------------------------------------------------
  // deleteItem, addOne, substractOne

  /** An id that no item carries leaves the list as it is, whichever of the
      three operations by id is applied. */
  lemma AbsentIdChangesNothing(items: seq<Item>, id: Uuid)
    requires IsFreshId(items, id)
    ensures Deleted(items, id) == items
    ensures Incremented(items, id) == items
    ensures Decremented(items, id) == items
  {
  }

  /** `deleteItem` removes the first item with the id and keeps the others in
      order; on a well-formed list no item with that id is left. */
  lemma DeletedPresent(items: seq<Item>, id: Uuid, k: nat)
    requires k < |items| && items[k].id == id
    requires forall j :: 0 <= j < k ==> items[j].id != id
    ensures var r := Deleted(items, id);
      && |r| == |items| - 1
      && r[..k] == items[..k]
      && r[k..] == items[k + 1..]
    ensures IdsUnique(items) ==> IsFreshId(Deleted(items, id), id)
  {
  }

  lemma DeletedKeepsWellFormed(items: seq<Item>, id: Uuid)
    requires WellFormed(items)
    ensures WellFormed(Deleted(items, id))
  {
    if FindFirst(items, IdIs(id)).Some? {
      var k := FindFirst(items, IdIs(id)).value;
      RemoveAtKeepsWellFormed(items, k);
    }
  }

  /** `addOne` raises the amount of the item with the id by one and changes nothing else. */
  lemma IncrementedPresent(items: seq<Item>, id: Uuid, k: nat)
    requires k < |items| && items[k].id == id
    requires forall j :: 0 <= j < k ==> items[j].id != id
    ensures var r := Incremented(items, id);
      && |r| == |items|
      && r[k] == Item(id, items[k].name, items[k].amount + 1)
      && forall j :: 0 <= j < |items| && j != k ==> r[j] == items[j]
  {
  }

  lemma IncrementedKeepsWellFormed(items: seq<Item>, id: Uuid)
    requires WellFormed(items)
    ensures WellFormed(Incremented(items, id))
  {
  }

  /** `substractOne` on an item with amount 1 removes it, exactly as `deleteItem` would. */
  lemma DecrementedLast(items: seq<Item>, id: Uuid, k: nat)
    requires k < |items| && items[k].id == id && items[k].amount == 1
    requires forall j :: 0 <= j < k ==> items[j].id != id
    ensures Decremented(items, id) == Deleted(items, id)
    ensures |Decremented(items, id)| == |items| - 1
  {
  }

  /** `substractOne` on an item with a larger amount lowers it by one and changes nothing else. */
  lemma DecrementedAboveOne(items: seq<Item>, id: Uuid, k: nat)
    requires k < |items| && items[k].id == id && items[k].amount > 1
    requires forall j :: 0 <= j < k ==> items[j].id != id
    ensures var r := Decremented(items, id);
      && |r| == |items|
      && r[k] == Item(id, items[k].name, items[k].amount - 1)
      && forall j :: 0 <= j < |items| && j != k ==> r[j] == items[j]
  {
  }

  lemma DecrementedKeepsWellFormed(items: seq<Item>, id: Uuid)
    requires WellFormed(items)
    ensures WellFormed(Decremented(items, id))
  {
    if FindFirst(items, IdIs(id)).Some? {
      var k := FindFirst(items, IdIs(id)).value;
      if items[k].amount - 1 == 0 {
        RemoveAtKeepsWellFormed(items, k);
      }
    }
  }

  /** `substractOne` undoes `addOne`. */
  lemma DecrementedUndoesIncremented(items: seq<Item>, id: Uuid)
    requires AmountsPositive(items)
    ensures Decremented(Incremented(items, id), id) == items
  {
  }

  /** `substractOne` on the item a new name just created takes the list back to
      what it was before `addItem`. */
  lemma DecrementedUndoesAddedNew(items: seq<Item>, name: string, freshId: Uuid)
    requires IsFreshId(items, freshId)
    requires forall j :: 0 <= j < |items| ==> Lower(items[j].name) != Lower(name)
    ensures Decremented(Added(items, name, freshId), freshId) == items
  {
    AddedNewName(items, name, freshId);
    var r := Added(items, name, freshId);
    FirstIdIs(r, freshId, |items|);
    assert RemoveAt(r, |items|) == items;
  }

  // ---------------------------------------------------------------------------
  // Two runs of the screen

  /** Typing "milk" and then "Milk" leaves one item, "Milk", with amount 2. */
  lemma MilkTwice(id1: Uuid, id2: Uuid)
    ensures Added(Added([], "milk", id1), "Milk", id2) == [Item(id1, "Milk", 2)]
  {
    var once := Added([], "milk", id1);
    assert UpperChar('m') == 'M';
    assert CapitalizeFrom("k", false) == "k";
    assert CapitalizeFrom("lk", false) == "lk";
    assert CapitalizeFrom("ilk", false) == "ilk";
    assert Capitalize("milk") == "Milk";
    assert once == [Item(id1, "Milk", 1)];
    assert Lower("Milk") == "milk";
    assert Matches(once[0], NameIs("Milk"));
  }

  /** "eggs", "Eggs", "bread" from an empty list give Eggs (2) followed by Bread (1). */
  lemma EggsEggsBread(id1: Uuid, id2: Uuid, id3: Uuid)
    ensures Added(Added(Added([], "eggs", id1), "Eggs", id2), "bread", id3)
         == [Item(id1, "Eggs", 2), Item(id3, "Bread", 1)]
  {
    var once := Added([], "eggs", id1);
    assert UpperChar('e') == 'E';
    assert CapitalizeFrom("s", false) == "s";
    assert CapitalizeFrom("gs", false) == "gs";
    assert CapitalizeFrom("ggs", false) == "ggs";
    assert Capitalize("eggs") == "Eggs";
    assert once == [Item(id1, "Eggs", 1)];
    assert Lower("Eggs") == "eggs";
    assert Matches(once[0], NameIs("Eggs"));
    var twice := Added(once, "Eggs", id2);
    assert twice == [Item(id1, "Eggs", 2)];
    assert Lower("bread") == "bread";
    assert !Matches(twice[0], NameIs("bread"));
    assert Capitalize("bread") == "Bread";
  }

  // ---------------------------------------------------------------------------
  // Helpers

  lemma FirstIdIs(items: seq<Item>, id: Uuid, k: nat)
    requires k < |items| && items[k].id == id
    requires forall j :: 0 <= j < k ==> items[j].id != id
    ensures FindFirst(items, IdIs(id)) == Some(k)
  {
  }

  lemma RemoveAtKeepsWellFormed(items: seq<Item>, k: nat)
    requires WellFormed(items) && k < |items|
    ensures WellFormed(RemoveAt(items, k))
  {
    var r := RemoveAt(items, k);
    assert forall i :: 0 <= i < |r| ==> r[i] == items[if i < k then i else i + 1];
  }
}
