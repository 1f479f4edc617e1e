/** The state of the shopping-list screen and the operations its buttons call.
    `items` and `newItem` are the screen's two pieces of state; `stored` is the
    list as the key-value store would give it back, the last value `saveList`
    wrote. Every operation updates the state in place and is proved to leave
    `items` as the matching function of Items prescribes. */
module ContentView {
  import opened Text
  import opened Items

  class ShoppingListView {
    /** The text field's contents. */
    var newItem: string
    /** The list on the screen, in display order. */
    var items: seq<Item>
    /** What the "shoppingItems" key of the key-value store decodes to. */
    var stored: seq<Item>

    /** The invariant every operation keeps: on the screen and in storage, every
        amount is at least 1 and no two items share an id or a case-insensitive name. */
    predicate Valid()
      reads this
    {
      WellFormed(items) && WellFormed(stored)
    }

    /** A screen that starts with an empty list and an empty text field; the
        store holds `persisted`, or nothing at all on the first launch. */
    constructor (persisted: Option<seq<Item>>)
      ensures newItem == "" && items == []
      ensures stored == if persisted.Some? then persisted.value else []
      ensures Valid() <==> WellFormed(stored)
      ensures persisted.None? ==> Valid()
    {
      newItem := "";
      items := [];
      stored := if persisted.Some? then persisted.value else [];
    }

    /** Writes the whole list to the store, replacing what was there. */
    method SaveList(value: seq<Item>)
      modifies this`stored
      ensures stored == value
    {
      stored := value;
    }

    /** Reads the list back from the store; a store without the key gives the empty list. */
    method GetList() returns (list: seq<Item>)
      ensures list == stored
    {
      list := stored;
    }

    /** What the screen does when it appears: it replaces its list by the stored one. */
    method OnAppear()
      modifies this`items
      ensures items == old(stored)
      ensures old(Valid()) ==> Valid()
    {
      items := GetList();
    }

    /** Adds the text field's contents, using `freshId` as a new item's UUID:
        raises the amount of an item with that name (up to letter case), or
        appends a new capitalized item; then empties the field and saves. */
    method AddItem(freshId: Uuid)
      requires FindFirst(items, NameIs(newItem)).None? ==> IsFreshId(items, freshId)
      modifies this
      ensures items == Added(old(items), old(newItem), freshId)
      ensures newItem == "" && stored == items
      ensures old(Valid()) ==> Valid()
    {
      ghost var before := items;
      var existingIndex := FirstIndex(items, NameIs(newItem));
      match existingIndex {
        case Some(index) =>
          items := items[index := items[index].(amount := items[index].amount + 1)];
        case None =>
          var item := Item(freshId, Capitalize(newItem), 1);
          items := items + [item];
      }
      if WellFormed(before) {
        AddedKeepsWellFormed(before, old(newItem), freshId);
      }
      newItem := "";
      SaveList(items);
    }

    /** Removes the item with the id of `item`, if there is one, and then saves. */
    method DeleteItem(item: Item)
      modifies this`items, this`stored
      ensures items == Deleted(old(items), item.id)
      ensures stored == if IsFreshId(old(items), item.id) then old(stored) else items
      ensures old(Valid()) ==> Valid()
    {
      if WellFormed(items) {
        DeletedKeepsWellFormed(items, item.id);
      }
      var found := FirstIndex(items, IdIs(item.id));
      if found.Some? {
        var index := found.value;
        items := items[..index] + items[index + 1..];
        SaveList(items);
      }
    }

    /** Raises the amount of the item with the id of `item`, if there is one, and then saves. */
    method AddOne(item: Item)
      modifies this`items, this`stored
      ensures items == Incremented(old(items), item.id)
      ensures stored == if IsFreshId(old(items), item.id) then old(stored) else items
      ensures old(Valid()) ==> Valid()
    {
      if WellFormed(items) {
        IncrementedKeepsWellFormed(items, item.id);
      }
      var found := FirstIndex(items, IdIs(item.id));
      if found.Some? {
        var index := found.value;
        items := items[index := items[index].(amount := items[index].amount + 1)];
        SaveList(items);
      }
    }

    /** Lowers the amount of the item with the id of `item`, if there is one.
        An item whose amount reaches 0 is deleted and the list saved; a plain
        decrement is not saved. */
    method SubstractOne(item: Item)
      modifies this`items, this`stored
      ensures items == Decremented(old(items), item.id)
      ensures stored == if ReachesZero(old(items), item.id) then items else old(stored)
      ensures old(Valid()) ==> Valid()
    {
      if WellFormed(items) {
        DecrementedKeepsWellFormed(items, item.id);
      }
      ghost var before := items;
      var found := FirstIndex(items, IdIs(item.id));
      if found.Some? {
        var index := found.value;
        items := items[index := items[index].(amount := items[index].amount - 1)];
        if items[index].amount == 0 {
          FirstIdIs(items, item.id, index);
          assert RemoveAt(items, index) == RemoveAt(before, index);
          DeleteItem(items[index]);
          SaveList(items);
        }
      }
    }

    /** Empties the list and saves the empty list. */
    method ClearItems()
      modifies this`items, this`stored
      ensures items == [] && stored == []
      ensures Valid()
    {
      items := [];
      SaveList(items);
    }
  }

  // ---------------------------------------------------------------------------
  // Two sessions at the screen, using nothing but the operations' contracts

  /** On a first launch, typing "milk" and then "Milk" shows and stores one
      item "Milk" with amount 2. */
  method MilkTwiceOnScreen(id1: Uuid, id2: Uuid) returns (shown: seq<Item>, saved: seq<Item>)
    ensures shown == [Item(id1, "Milk", 2)]
    ensures saved == shown
  {
    var view := new ShoppingListView(None);
    view.newItem := "milk";
    view.AddItem(id1);
    view.newItem := "Milk";
    view.AddItem(id2);
    MilkTwice(id1, id2);
    shown, saved := view.items, view.stored;
  }

  /** Clearing the list and launching the app again shows an empty list,
      whatever the store held before. */
  method ClearThenRelaunch(persisted: Option<seq<Item>>) returns (shown: seq<Item>)
    ensures shown == []
  {
    var view := new ShoppingListView(persisted);
    view.OnAppear();
    view.ClearItems();
    var next := new ShoppingListView(Some(view.stored));
    next.OnAppear();
    shown := next.items;
  }

  /** A decrement that leaves the amount above 0 is shown but never written to
      the store: after a relaunch the screen shows the amount from before. */
  method DecrementLostOnRelaunch(persisted: seq<Item>, k: nat) returns (onScreen: seq<Item>, afterRelaunch: seq<Item>)
    requires k < |persisted| && persisted[k].amount > 1 && IdsUnique(persisted)
    ensures |onScreen| == |persisted| && onScreen[k].amount == persisted[k].amount - 1
    ensures afterRelaunch == persisted
  {
    var view := new ShoppingListView(Some(persisted));
    view.OnAppear();
    DecrementedAboveOne(persisted, persisted[k].id, k);
    view.SubstractOne(persisted[k]);
    onScreen := view.items;
    var next := new ShoppingListView(Some(view.stored));
    next.OnAppear();
    afterRelaunch := next.items;
  }
}
