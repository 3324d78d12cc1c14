# Shopping list: a Dafny model of the list state

The shopping-list application is a single React component. It holds nine
pieces of state: the product list, the three draft fields of the add form
(name, shop, category), the four filter fields (name, shop, category, status)
and the "Shopping Completed!" flag. Its handlers add a product, toggle a
product's "bought" flag, delete a product and reset the filters. The table
shows the products that pass four filter tests.

This model gives that state and its handlers in Dafny:

- `lists.dfy`, module `Lists`: the array operations the handlers build new lists with.
  `Filter` models `Array.prototype.filter` and `Every` models `Array.prototype.every`.
  `IsSubseq` states that one list is an order-preserving subsequence of another.
- `products.dfy`, module `Products`: the `Product` record. It also holds the new lists
  that a toggle (`Toggle`) and a delete (`Delete`) produce, the completion condition
  (`AllBought`) and the unique-id invariant (`UniqueIds`), with lemmas about them.
- `filter_engine.dfy`, module `FilterEngine`: the four filter tests and `FilterProducts`,
  the rows the table shows, with lemmas about them.
- `shopping_list.dfy`, module `ShoppingList`: class `App` with the nine state fields as
  mutable fields. Each handler and form input is a method. `Valid()` is the invariant
  that every handler and form input keeps. `RefreshAlert` is the effect that
  recomputes the completion flag: it ensures `showAlert == AllBought(products)`,
  which re-establishes the last conjunct of `Valid()`.

Modelling decisions:

- A product id is a string, as the generator returns. The generator itself becomes
  the `id` parameter of `HandleAddProduct`, which requires that no product in the
  list already has that id (`Fresh`).
- The source never sets `isBought` when it creates a product, so the field is
  undefined, which every use reads as false. Here it is a `bool` that starts as `false`.
- Lower-casing is ASCII only (`FilterEngine.Lower`).
- Each handler is one atomic transition. The effect that sets `showAlert` runs
  whenever the list changes; here it is the conjunct `showAlert == AllBought(products)`
  of `Valid()`, which every handler that changes the list re-establishes through
  `RefreshAlert`.
- The shop, category and status filters are plain strings, as in the code. The
  selects and radios can only hand certain values to their change handlers, so the
  `Set…` methods require those values.
- The placeholder options "Select Shop" and "Select Category" have no `value`
  attribute, so choosing one hands its text to the change handler. The add handler
  only checks that the drafts are non-empty, so a product can be stored with the
  shop "Select Shop" (`PlaceholderShopIsStored`). A stored shop is therefore one of
  the four shops or the placeholder text (`Storable`).
- The "Not Bought" radio has `value="all"`, but its change handler sets
  `"not-bought"`, and that is what the state receives. The model follows the
  handler, so `filterStatus` is always "all", "bought" or "not-bought".

## Model

| member | source | states |
|---|---|---|
| Lists.Filter | src/App.jsx:64-66 | the result is no longer than the input and is an order-preserving subsequence of it; it holds an element exactly when the input holds it and the element passes the test |
| Lists.FilterMultiset | src/App.jsx:70-88 | filtering keeps every occurrence of each passing element and no occurrence of a failing one |
| Lists.FilterConcat | src/App.jsx:64-66 | filtering a concatenation gives the concatenation of the filtered parts |
| Lists.FilterKeepsAll | src/App.jsx:64-66 | when every element passes, filtering returns the list unchanged |
| Lists.FilterDropsAll | src/App.jsx:70-88 | when no element passes, filtering returns the empty list |
| Lists.Every | src/App.jsx:25 | `every` holds exactly when each element satisfies the test; it holds of the empty list |
| Products.AppendNewProduct | src/App.jsx:40-47 | appending the new product grows the list by one and keeps the earlier products in order; the new product carries the fresh id and the draft name, shop and category and is not bought; the ids stay unique and the completion condition is false |
| Products.AppendKeepsUniqueIds | src/App.jsx:40-47 | appending a product whose id is fresh keeps the ids of the list unique |
| Products.Toggle | src/App.jsx:54-61 | the toggled list has the same length; at each position it holds the flipped product where the id matches and the old product elsewhere |
| Products.ToggleKeepsFields | src/App.jsx:55-59 | toggling keeps every id, name, shop and category in place and changes `isBought` exactly where the id matches |
| Products.ToggleKeepsUniqueIds | src/App.jsx:55-59 | toggling keeps the ids unique |
| Products.ToggleAbsent | src/App.jsx:55-59 | toggling an id that no product has is a no-op |
| Products.ToggleTwice | src/App.jsx:54-61 | toggling the same id twice restores the list |
| Products.Delete | src/App.jsx:63-68 | the result is an order-preserving subsequence of the list; it holds exactly the products whose id differs, and none with the deleted id |
| Products.DeleteAbsent | src/App.jsx:64-66 | deleting an id that no product has is a no-op |
| Products.DeleteSplit | src/App.jsx:64-66 | deleting the id of a product that alone carries it removes exactly that product; the products before it and after it stay in order |
| Products.DeleteExactlyOne | src/App.jsx:63-68 | with unique ids, deleting the id of the product at position k yields the list without position k, one shorter |
| Products.NeighboursHaveOtherIds | src/App.jsx:63-68 | with unique ids, no product before or after position k shares its id |
| Products.SubseqKeepsUniqueIds | src/App.jsx:64-66 | every subsequence of a list with unique ids has unique ids and only elements of the list |
| Products.DeleteKeepsUniqueIds | src/App.jsx:63-68 | deleting keeps the ids unique |
| Products.AllBought | src/App.jsx:24-30 | the completion condition holds exactly when the list is non-empty and every product is bought |
| Products.AddClearsAllBought | src/App.jsx:24-47 | after a product that is not bought is appended, the completion condition is false |
| Products.ToggleBreaksAllBought | src/App.jsx:24-30 | in a completed list, toggling the id of any product that is present makes the condition false |
| Products.ToggleLastCompletes | src/App.jsx:24-30 | toggling the id carried by exactly the products that are not bought makes a non-empty list complete |
| FilterEngine.LowerStr | src/App.jsx:71-73 | lower-casing keeps the length and lower-cases each character |
| FilterEngine.IncludesIff | src/App.jsx:71-73 | `includes` holds exactly when the needle occurs at some position of the name |
| FilterEngine.EmptyNameMatches | src/App.jsx:71-73 | an empty name filter matches every product |
| FilterEngine.NameExample | src/App.jsx:71-73 | the name filter "mi" matches "Milk" whatever its case, and not "Bread" |
| FilterEngine.FilterProducts | src/App.jsx:70-88 | the rows are an order-preserving subsequence of the list, no longer than it; a product is a row exactly when the name, shop, category and status tests all hold |
| FilterEngine.WildcardsShowAll | src/App.jsx:74-84 | with an empty name, a wildcard shop ("" or "All Shops"), a wildcard category ("" or "All Categories") and status "all" or "", the rows are the whole list |
| FilterEngine.DefaultsShowAll | src/App.jsx:18-21 | with the initial filters ("", "", "", "all") the rows are the whole list |
| FilterEngine.StatusPartition | src/App.jsx:82-86 | under any name, shop and category filters, the "bought" rows and the "not-bought" rows together are exactly as many as the "all" rows |
| FilterEngine.AllBoughtIffNothingOutstanding | src/App.jsx:25 | the completion condition holds exactly when the list is non-empty and its unfiltered "not-bought" view is empty |
| FilterEngine.TwoProductExample | src/App.jsx:70-88 | for the list [Milk (Lidl, Fruit, not bought), Bread (Jumbo, Bakery, bought)], "mi" shows [Milk], status "bought" shows [Bread], and shop "Ethos" shows nothing |
| ShoppingList.ToggleKeepsStorable | src/App.jsx:54-61 | toggling keeps every stored name non-empty and every stored shop and category a select option |
| ShoppingList.DeleteKeepsStorable | src/App.jsx:63-68 | deleting keeps every stored name non-empty and every stored shop and category a select option |
| ShoppingList.App.constructor | src/App.jsx:14-22 | the initial state: an empty list, empty drafts and filters, status "all", no banner |
| ShoppingList.App.RefreshAlert | src/App.jsx:24-30 | the banner flag becomes `AllBought(products)`: set exactly when the list is non-empty and every product is bought; nothing else changes |
| ShoppingList.App.SetProductName | src/App.jsx:107 | only the draft name changes, to the typed text |
| ShoppingList.App.SetProductShop | src/App.jsx:115-123 | only the draft shop changes, to the chosen option ("Select Shop" or one of the shops) |
| ShoppingList.App.SetProductCategory | src/App.jsx:131-139 | only the draft category changes, to the chosen option ("Select Category" or one of the categories) |
| ShoppingList.App.SetFilteredName | src/App.jsx:156 | only the name filter changes |
| ShoppingList.App.SetFilteredShop | src/App.jsx:164-172 | only the shop filter changes, to "All Shops" or one of the shops |
| ShoppingList.App.SetFilteredCategory | src/App.jsx:180-188 | only the category filter changes, to "All Categories" or one of the categories |
| ShoppingList.App.SetFilterStatus | src/App.jsx:192-217 | only the status filter changes, to "all", "bought" or "not-bought" |
| ShoppingList.App.HandleAddProduct | src/App.jsx:34-52 | the add succeeds exactly when the draft name, shop and category are all non-empty. On success the list becomes the old list plus the new product, the drafts are cleared and the banner is off. Otherwise the list, the drafts and the banner are unchanged. The filters never change, and the invariant is kept |
| ShoppingList.App.HandleBought | src/App.jsx:54-61 | the list becomes its toggle by the id; nothing but the list and the banner changes, and the invariant (unique ids, banner in step) is kept |
| ShoppingList.App.HandleDelete | src/App.jsx:63-68 | the list becomes the old list without the products carrying the id. If the product at position k carries the id, the result is the old list without position k. Nothing but the list and the banner changes, and the invariant is kept |
| ShoppingList.App.ResetFilters | src/App.jsx:90-94 | the name, shop and category filters become ""; the status filter, the list and the drafts are unchanged |
| ShoppingList.App.FilteredProducts | src/App.jsx:70-88 | the table rows have unique ids; a product is a row exactly when it is in the list and passes the current filters |
| ShoppingList.PlaceholderShopIsStored | src/App.jsx:115-123 | choosing a shop and then "Select Shop" again passes validation, and the placeholder text is stored as the product's shop |

## Left out

- Rendering: the JSX forms and table, the react-bootstrap components and the styled table cells are presentation with no logic.
- The `alert` on a rejected add and the `console.log` after an add are UI and debug output. A rejected add is modelled as `added == false` with the state unchanged.
- The random id generator is foreign code. It is replaced by an `id` parameter that must be fresh.
- `toLowerCase` on full Unicode: the model lower-cases ASCII letters only.
- React's batching of state updates and its scheduling of the effect. Each handler is one atomic transition, and the effect is re-established at the end of each handler that changes the list.
- The confetti code is commented out in the source and is not modelled.
