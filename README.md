# Shopping list: a verified model of the list screen

yourShoppingList is a one-screen iOS shopping list. The screen holds two pieces
of state: the list of items in display order, and the text typed into the
"Add Item" field. Its buttons call five operations:

- `addItem` adds the typed name, or bumps an existing item with that name.
- `deleteItem` removes an item.
- `addOne` raises an item's amount.
- `substractOne` lowers an item's amount and removes the item at 0.
- `clearItems` empties the list.

After every operation that changes the list, except a decrement that leaves the
amount above 0, the list is written whole to the key-value store under the key
"shoppingItems". When the screen appears, it reads the list
back from there.

This project models that logic in Dafny and proves what the operations do.

- `text.dfy` (module `Text`) covers case mapping: `Lower` stands for
  `lowercased()` and `Capitalize` for `capitalized`. It proves that a
  capitalized name equals its original up to letter case, which is the fact
  that lets the screen keep names unique. This holds for the modelled ASCII
  case mapping only: Foundation's `capitalized` changes the length of texts
  such as "ß" or "ﬁ", and for those the bridge need not hold.
- `items.dfy` (module `Items`) covers the list as a value:
  - the `Item` record and its 128-bit `Uuid`;
  - the two searches the screen hands to `firstIndex(where:)`, as the function
    `FindFirst` and the looping method `FirstIndex`;
  - one function per operation (`Added`, `Deleted`, `Incremented`,
    `Decremented`) giving the list that operation leaves;
  - the invariant `WellFormed`: every amount is at least 1, and no two items
    share an id or a case-insensitive name;
  - lemmas saying what each operation changes, what it leaves alone, and that
    it keeps the invariant.
- `content_view.dfy` (module `ContentView`) covers the screen itself. The class
  `ShoppingListView` has the fields `newItem`, `items` and `stored`, where
  `stored` is the list the store would give back. Each operation updates these
  fields in place, using the same search, index update, append and removal as
  the source. Each is proved to leave `items` equal to the matching function of
  `Items`, to save exactly when the source saves, and to keep `Valid()`. Three
  client methods run whole sessions against these contracts alone.

Three behaviours of the code are easy to miss, and the model keeps them as written:

- `addItem` has no check for an empty or blank name. An empty text field adds
  an item named "" (or bumps the existing one).
- `substractOne` saves only when it removes an item, and then it saves twice:
  once inside `deleteItem` and once more afterwards. A decrement that leaves the
  amount above 0 is not saved. `DecrementLostOnRelaunch` shows the result: the
  screen shows the lowered amount, but after a relaunch it shows the old amount
  again.
- `saveList` and `getList` run no validation of their own. A decoding failure
  is only printed by the caller.

## Model

| member | source | states |
|---|---|---|
| `Text.Lower` | yourShoppingListApp/yourShoppingList/ContentView.swift:107 | `lowercased()` keeps the length and lower-cases each character on its own |
| `Text.CapitalizeFrom` | yourShoppingListApp/yourShoppingList/ContentView.swift:111 | `capitalized` keeps the length, upper-cases each character that starts a word and lower-cases every other one, and never turns a word separator into a letter or a letter into one |
| `Text.Capitalize` | yourShoppingListApp/yourShoppingList/ContentView.swift:111 | a capitalized name has as many characters as the typed text; its first character and every character after a space, tab or line break are upper-cased, all others lower-cased |
| `Text.LowerOfCapitalizeFrom` | yourShoppingListApp/yourShoppingList/ContentView.swift:107-111 | lower-casing forgets what capitalizing did, at any point of a text |
| `Text.LowerOfCapitalize` | yourShoppingListApp/yourShoppingList/ContentView.swift:107-111 | a new item's capitalized name matches the text it came from, case-insensitively: `Lower(Capitalize(s)) == Lower(s)` |
| `Items.FindFirst` | yourShoppingListApp/yourShoppingList/ContentView.swift:107 | the result is the index of the first item that matches the query, and it is absent exactly when no item matches; a `Query` with `Matches` stands for the closures passed at lines 107 (same name after `Lower`), 119, 126 and 133 (same id), over the `Item` records of lines 149-159 |
| `Items.ReachesZero` | yourShoppingListApp/yourShoppingList/ContentView.swift:133-135 | the `amount == 0` test after the decrement holds exactly when the first item with the id has amount 1 |
| `Items.FirstIndex` | yourShoppingListApp/yourShoppingList/ContentView.swift:107 | the linear `firstIndex(where:)` search, used at lines 107, 119, 126 and 133, returns exactly that first matching index or nothing |
| `Items.AddedExistingName` | yourShoppingListApp/yourShoppingList/ContentView.swift:107-109 | for `Added`, the model of `addItem`: when the first case-insensitive match of the name is at index k: only item k changes, its amount rises by 1, and its id and name stay; the length and all other items are unchanged |
| `Items.AddedNewName` | yourShoppingListApp/yourShoppingList/ContentView.swift:110-112 | for `Added`, the model of `addItem`: when no name matches: the old list is an unchanged prefix, followed by exactly one new item with the fresh id, the capitalized name and amount 1 |
| `Items.AddedNameOnce` | yourShoppingListApp/yourShoppingList/ContentView.swift:106-113 | after `addItem` on a well-formed list, the name is found, and exactly one item carries it up to letter case |
| `Items.AddedKeepsWellFormed` | yourShoppingListApp/yourShoppingList/ContentView.swift:107-112 | `addItem` keeps amounts at least 1, names unique up to case and ids unique, given an unused id whenever a new item is appended |
| `Items.AbsentIdChangesNothing` | yourShoppingListApp/yourShoppingList/ContentView.swift:118-140 | an id no item carries leaves the list unchanged under `deleteItem`, `addOne` and `substractOne` |
| `Items.DeletedPresent` | yourShoppingListApp/yourShoppingList/ContentView.swift:118-120 | `Deleted`, the model of `deleteItem`, removes exactly the first item with the id, keeps the items before and after it in order, and on a list of unique ids leaves no item with that id |
| `Items.DeletedKeepsWellFormed` | yourShoppingListApp/yourShoppingList/ContentView.swift:118-123 | `deleteItem` keeps the list well formed |
| `Items.IncrementedPresent` | yourShoppingListApp/yourShoppingList/ContentView.swift:125-127 | `Incremented`, the model of `addOne`, raises the amount of the first item with the id by 1 and changes nothing else |
| `Items.IncrementedKeepsWellFormed` | yourShoppingListApp/yourShoppingList/ContentView.swift:125-130 | `addOne` keeps the list well formed |
| `Items.DecrementedLast` | yourShoppingListApp/yourShoppingList/ContentView.swift:132-136 | `Decremented`, the model of `substractOne`, on an item with amount 1 removes it, exactly as `deleteItem` would, and shortens the list by one |
| `Items.DecrementedAboveOne` | yourShoppingListApp/yourShoppingList/ContentView.swift:132-135 | `Decremented`, the model of `substractOne`, on an item with a larger amount lowers that amount by 1 and changes nothing else |
| `Items.DecrementedKeepsWellFormed` | yourShoppingListApp/yourShoppingList/ContentView.swift:132-140 | `substractOne` keeps the list well formed: an amount that would reach 0 removes the item |
| `Items.DecrementedUndoesIncremented` | yourShoppingListApp/yourShoppingList/ContentView.swift:125-140 | on a list with positive amounts, `substractOne` after `addOne` on the same id gives back the original list |
| `Items.DecrementedUndoesAddedNew` | yourShoppingListApp/yourShoppingList/ContentView.swift:106-140 | `substractOne` on the item a new name just created gives back the list from before `addItem` |
| `Items.MilkTwice` | yourShoppingListApp/yourShoppingList/ContentView.swift:106-116 | "milk" then "Milk" on an empty list gives one item "Milk" with amount 2 |
| `Items.EggsEggsBread` | yourShoppingListApp/yourShoppingList/ContentView.swift:106-116 | "eggs", "Eggs", "bread" on an empty list give Eggs (2) followed by Bread (1), in that order |
| `ContentView.ShoppingListView.constructor` | yourShoppingListApp/yourShoppingList/ContentView.swift:18-19 | the screen starts with an empty list and an empty text field; a store without the key reads as the empty list (line 101); the invariant holds exactly when the stored list is well formed, so on a first launch it holds |
| `ContentView.ShoppingListView.SaveList` | yourShoppingListApp/yourShoppingList/ContentView.swift:91-98 | saving replaces the whole stored list by the given one |
| `ContentView.ShoppingListView.GetList` | yourShoppingListApp/yourShoppingList/ContentView.swift:100-104 | reading gives back exactly the list last saved, or the empty list when nothing was saved |
| `ContentView.ShoppingListView.OnAppear` | yourShoppingListApp/yourShoppingList/ContentView.swift:66-72 | appearing replaces the list on screen by the stored list, and the invariant survives |
| `ContentView.ShoppingListView.AddItem` | yourShoppingListApp/yourShoppingList/ContentView.swift:106-116 | the list becomes `Added(old list, old text, freshId)`, the text field becomes "", the stored list equals the new list, and `Valid()` is kept; the id must be unused only when a new item is appended |
| `ContentView.ShoppingListView.DeleteItem` | yourShoppingListApp/yourShoppingList/ContentView.swift:118-123 | the list becomes `Deleted(old list, id)`; the store is rewritten only when the id was present, so an absent id changes neither the list nor the store; `Valid()` is kept |
| `ContentView.ShoppingListView.AddOne` | yourShoppingListApp/yourShoppingList/ContentView.swift:125-130 | the list becomes `Incremented(old list, id)`; the store is rewritten only when the id was present; `Valid()` is kept |
| `ContentView.ShoppingListView.SubstractOne` | yourShoppingListApp/yourShoppingList/ContentView.swift:132-140 | the list becomes `Decremented(old list, id)`; the store is rewritten only when the item reached 0 and was removed, and not on a plain decrement or an absent id; `Valid()` is kept |
| `ContentView.ShoppingListView.ClearItems` | yourShoppingListApp/yourShoppingList/ContentView.swift:142-145 | the list and the stored list are both empty afterwards |
| `ContentView.MilkTwiceOnScreen` | yourShoppingListApp/yourShoppingList/ContentView.swift:106-116 | on the screen itself, "milk" then "Milk" shows and stores one item "Milk" with amount 2 |
| `ContentView.ClearThenRelaunch` | yourShoppingListApp/yourShoppingList/ContentView.swift:66-72 | after clearing, a relaunch that reads the store shows the empty list, whatever the store held before |
| `ContentView.DecrementLostOnRelaunch` | yourShoppingListApp/yourShoppingList/ContentView.swift:132-140 | a decrement that leaves the amount above 0 is shown, but after a relaunch the screen shows the list from before the decrement |

## Left out

- The SwiftUI view body (layout, buttons, swipe actions, the text field
  binding), `amountButton` and the preview are left out. They present the state
  and call the operations, and hold no logic of their own. The text field's
  binding is modelled as a plain assignment to `newItem`.
- JSON encoding and decoding and the `UserDefaults` calls are left out. They are
  foreign library calls. `stored` holds the list that the store would decode
  to, so a decoding failure cannot arise in the model, and neither can the
  printed error in `onAppear` or `saveList`.
- `Text.Lower` and `Text.Capitalize` model only the ASCII letters. Unicode case
  mapping (other scripts, ligatures, characters whose case form has a different
  length) is left out. Foundation's word segmentation for `capitalized` is
  reduced to splitting at spaces, tabs and line terminators.
- `UUID()` is not modelled. `addItem` receives the new item's id as a parameter.
  When the name matches no item, its precondition says that no item already has
  that id, which is what a newly generated UUID gives; when the name matches,
  the id is unused, as in the source.
- String equality and length are taken at the level of character sequences.
  Swift's `String ==` at line 107 compares by Unicode canonical equivalence, so
  "Café" with a precomposed "é" equals "Cafe" followed by a combining accent in
  the app, but not in the model. `NamesUnique` is therefore uniqueness of
  character sequences after `Lower`, not uniqueness under Swift's equality.
- The amount is an unbounded integer. Swift's trap on `Int` overflow in
  `amount += 1` is not modelled.
- The state is single-threaded, as SwiftUI runs these handlers on the main
  thread. No concurrency is modelled.
