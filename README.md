# Wineshop basket and catalogue core, modelled in Dafny

This project models the domain core of a Spring Boot wine shop. The core has two parts.

The catalogue:
- the `Wine` entity, its validation constraints and its two constructors;
- the filter criteria that select wines by colour, flavour, type and price;
- the service that turns a price-range token such as `"20-30"` into price bounds, lists matching wines and looks a wine up by id.

The session basket:
- the `Basket` and `BasketItem` entities;
- the basket lifecycle service: get-or-create per session, delete with its lines, and rename to another session id;
- the basket-item service: adding a wine, which merges into the existing line; removing a line; overwriting a line's quantity; listing lines in wine-id order; and totalling the basket.

Representation:
- Money is held in integer hundredths, so 20.00 is `2000`.
- A nullable field or result is an `Option`, and `null` is `Option.None`. The `Wine` fields marked `@NotNull` (name, price, image path, volume, stock) are plain values, so they cannot be null.
- The services' unchecked exceptions become `Failed(error)` outcomes or `Err(error)` results.
- The database is a `Store` value. It holds the wine table as a sequence, the basket table keyed by its unique session id, and the item table keyed by its unique (basket id, wine id) pair.

Each state-changing service operation appears twice. These are `getOrCreateBasket`, `deleteBasket`, `updateSessionId`, `addOrUpdateBasketItem`, `removeBasketItem` and `updateBasketItemQuantity`:
- as a function from the old store to its outcome and the new store;
- as a method of a service class that makes the same change to a shared `Database` object. The method's contract ties it to the function and keeps the store invariant `StoreValid`.

The read-only operations appear only as functions of the store: `getBasketItems`, `calculateTotalCost`, `filterWines`, `findWineById` and the repository lookups.

`StoreValid` says:
- every line belongs to an existing basket;
- every line refers to a catalogue wine;
- no line exceeds that wine's stock;
- every line is priced at unit price times quantity;
- ids are unique.

The entity classes keep their in-memory list behaviour. That includes the id-only equality, under which two unsaved items are equal. The model has no separate equality predicate: `FirstEqual` compares ids, and the tables are keyed by id.

Modules and files:
- `Common` (common.dfy): options, errors, outcomes, and 32-bit `int` wrap-around.
- `Wines` (wines.dfy): the wine entity and the wine-table lookup.
- `WineSpecification` (wine_specification.dfy): the filter criteria and `findAll`.
- `WineService` (wine_service.dfy): price ranges, filtering and lookup.
- `Entities` (entities.dfy): the `Basket` and `BasketItem` heap objects.
- `Tables` (tables.dfy): the store, its invariant, the sorted line listing and the sums.
- `BasketService` (basket_service.dfy): the basket lifecycle.
- `BasketItemService` (basket_item_service.dfy): reconciling basket lines.

Two behaviours of the code that the model keeps on purpose:
- A basket line is never checked against a lower bound; only the upper bound against stock is checked. So `updateBasketItemQuantity` accepts 0 or a negative quantity, and an add with a negative quantity can shrink a line.
- All price bounds are inclusive, so a wine at exactly 20.00 is listed under both `"<20"` and `"20-30"`.

## Model

| member | source | states |
|---|---|---|
| Common.Wrap32 | src/main/java/com/wineshop/service/BasketItemService.java:52 | Java `int` addition: the result is in the 32-bit range, congruent to the exact value modulo 2^32, and equal to it when the exact value fits |
| Wines.AlcoholValid | src/main/java/com/wineshop/model/Wine.java:46-50 | an absent alcohol content is valid; a present one lies between 0.0 and 100.0 inclusive, with at most one significant fraction digit and at most three integer digits |
| Wines.Valid | src/main/java/com/wineshop/model/Wine.java:23-87 | the declared constraints: name at most 255 characters, price ≥ 0, alcohol content valid, volume ≥ 187, serving temperature at most 50 characters, stock ≥ 0, colour and flavour present; the `@NotNull` fields are non-null by their types |
| Wines.NewWine | src/main/java/com/wineshop/model/Wine.java:89-97 | the seven-argument constructor stores its arguments, leaves every optional field null and the id 0; the wine satisfies all declared constraints iff name ≤ 255 chars, price ≥ 0, volume ≥ 187, stock ≥ 0, and colour and flavour are present |
| Wines.NewFullWine | src/main/java/com/wineshop/model/Wine.java:99-109 | the thirteen-argument constructor stores every argument in its field |
| Wines.FullConstructorExtendsShort | src/main/java/com/wineshop/model/Wine.java:102 | with all optional arguments null, the long constructor builds exactly the wine the short one builds |
| Wines.FindById | src/main/java/com/wineshop/service/WineService.java:43 | a found wine is in the table and has the id; nothing is found iff no wine has that id |
| Wines.FindByIdUnique | src/main/java/com/wineshop/model/Wine.java:18-21 | with distinct primary keys, looking up any row's id returns exactly that row |
| WineSpecification.TrimStartIndex | src/main/java/com/wineshop/specification/WineSpecification.java:13 | the first scan of `String.trim`: every character it skips is ≤ U+0020, and it stops at the first character above U+0020 or at the end |
| WineSpecification.TrimEndIndex | src/main/java/com/wineshop/specification/WineSpecification.java:13 | the second scan of `String.trim`: it never goes below the start index, every character it drops is ≤ U+0020, and it stops after a character above U+0020 |
| WineSpecification.Trim | src/main/java/com/wineshop/specification/WineSpecification.java:13 | `String.trim`: the result is the slice after the leading characters ≤ U+0020, and every character outside it is ≤ U+0020; it is empty iff the string is all such characters, and otherwise neither of its ends is one |
| WineSpecification.BlankMeansAllTrimmable | src/main/java/com/wineshop/specification/WineSpecification.java:13 | the three-part blank guard (null, blank after trim, a single space) holds iff the criterion is null or made only of characters ≤ U+0020 |
| WineSpecification.NameEquals | src/main/java/com/wineshop/specification/WineSpecification.java:13-16 | a blank criterion accepts every wine; otherwise a wine matches iff it has the attribute and the attribute's name equals the criterion |
| WineSpecification.HasColor | src/main/java/com/wineshop/specification/WineSpecification.java:11-18 | blank colour accepts all wines; otherwise it accepts exactly the wines whose colour name equals the argument |
| WineSpecification.HasFlavour | src/main/java/com/wineshop/specification/WineSpecification.java:21-28 | blank flavour accepts all wines; otherwise it accepts exactly the wines whose flavour name equals the argument |
| WineSpecification.HasType | src/main/java/com/wineshop/specification/WineSpecification.java:31-38 | blank type accepts all wines; otherwise it accepts exactly the wines whose type name equals the argument, so a wine with no type never matches |
| WineSpecification.HasPriceBetween | src/main/java/com/wineshop/specification/WineSpecification.java:41-53 | the four null/non-null cases: no bound accepts all; only a maximum gives price ≤ max; only a minimum gives price ≥ min; both give min ≤ price ≤ max, inclusive |
| WineSpecification.And | src/main/java/com/wineshop/specification/WineSpecification.java:57-60 | the combined specification accepts a wine iff both parts do |
| WineSpecification.Filter | src/main/java/com/wineshop/specification/WineSpecification.java:56-61 | accepts a wine iff the colour, flavour, type and price criteria all accept it |
| WineSpecification.FilterWithoutCriteriaAcceptsAll | src/main/java/com/wineshop/specification/WineSpecification.java:56-61 | with every argument null, the filter accepts every wine |
| WineSpecification.SharedBoundaryPassesBothRanges | src/main/java/com/wineshop/specification/WineSpecification.java:46-50 | a price equal to a shared bound passes both the range ending there and the range starting there |
| WineSpecification.FindAll | src/main/java/com/wineshop/service/WineService.java:34 | `findAll(spec)` returns no more rows than the table, and a wine is in the result iff it is in the table and the specification accepts it |
| WineSpecification.FindAllAcceptingEverything | src/main/java/com/wineshop/service/WineService.java:34 | a specification that accepts everything returns the whole table (in the sequence order the model fixes for the query) |
| WineSpecification.FindAllAnd | src/main/java/com/wineshop/specification/WineSpecification.java:57-60 | querying with `a.and(b)` equals querying with `a` and then keeping the rows `b` accepts (as sequences, under the model's fixed query order) |
| WineSpecification.FindAllIsSubsequence | src/main/java/com/wineshop/service/WineService.java:34 | under the model's fixed query order, the result is a subsequence of the table |
| WineSpecification.FilterNarrowsEachCriterion | src/main/java/com/wineshop/specification/WineSpecification.java:56-61 | the combined filter's result is a subsequence of each single criterion's result |
| WineSpecification.FindAllExtensional | src/main/java/com/wineshop/service/WineService.java:34 | two specifications that agree on every wine select the same rows |
| WineService.MapPriceRange | src/main/java/com/wineshop/service/WineService.java:51-78 | null or blank gives no bounds; the result has a bound iff the untrimmed argument is one of the five tokens; each token maps to its exact bounds (20, 20–30, 30–40, 40–50, 50); min < max whenever both are set |
| WineService.PaddedTokenAppliesNoFilter | src/main/java/com/wineshop/service/WineService.java:56-57 | the blank test trims but the switch does not, so `" 20-30"` and `"20-30 "` apply no price filter |
| WineService.TwentyIsInBothLowRanges | src/main/java/com/wineshop/service/WineService.java:58-62 | a wine at exactly 20.00 is accepted under both `"<20"` and `"20-30"` |
| WineService.FilterWines | src/main/java/com/wineshop/service/WineService.java:25-38 | a wine is listed iff it is in the catalogue and accepted by the filter with the mapped bounds; under the model's fixed query order the listing is a subsequence of the catalogue |
| WineService.FilterWinesWithoutCriteria | src/main/java/com/wineshop/service/WineService.java:25-38 | with all four arguments null, the whole catalogue is listed |
| WineService.UnknownTokenIgnored | src/main/java/com/wineshop/service/WineService.java:72 | an unrecognised price token lists exactly what a null price range lists |
| WineService.FindWineByIdOrThrow | src/main/java/com/wineshop/service/WineService.java:41-48 | returns a catalogue wine with that id; fails with WineNotFound iff no wine has the id |
| Entities.BasketItem.Empty | src/main/java/com/wineshop/model/BasketItem.java:41 | the no-argument constructor defaults the quantity to 1 and leaves everything else unset |
| Entities.BasketItem.constructor | src/main/java/com/wineshop/model/BasketItem.java:48-52 | stores wine, quantity and price as given; id and basket stay unset |
| Entities.FirstEqual | src/main/java/com/wineshop/model/Basket.java:38 | the position `List.remove(Object)` removes: the first item whose id equals the argument, or the length when there is none |
| Entities.RemoveFirstEqual | src/main/java/com/wineshop/model/Basket.java:38 | removing an item no element equals leaves the list unchanged; otherwise exactly the first element with that id goes and the rest keep their order |
| Entities.AppendThenRemoveRestores | src/main/java/com/wineshop/model/Basket.java:32-40 | appending an item with a fresh id and then removing it gives back the original list |
| Entities.UnsavedItemsAreInterchangeable | src/main/java/com/wineshop/model/BasketItem.java:17-22 | two distinct unsaved items are equal (null ids), so removing the second takes out the first and leaves the second in the list |
| Entities.Basket.constructor | src/main/java/com/wineshop/model/Basket.java:23-30 | a new basket has the given session id, no items and no id |
| Entities.Basket.AddItem | src/main/java/com/wineshop/model/Basket.java:32-35 | appends the item, points it back at this basket, and changes nothing else on either object |
| Entities.Basket.RemoveItem | src/main/java/com/wineshop/model/Basket.java:37-40 | removes the first element equal to the item, clears the item's basket in every case, and changes nothing else |
| Entities.AddThenRemove | src/main/java/com/wineshop/model/Basket.java:32-40 | `addItem` then `removeItem` of a fresh-id item restores the basket's list and leaves the item detached |
| Tables.LinesOf | src/main/java/com/wineshop/service/BasketItemService.java:116-118 | `findByBasket` sorted by wine id: strictly ascending wine ids; each entry is the stored line; every stored line of the basket appears |
| Tables.NoLinesForUnusedBasket | src/main/java/com/wineshop/model/BasketItem.java:25-30 | in a consistent store, a basket id no basket carries has no lines, because each line must reference an existing basket |
| Tables.SumPrices | src/main/java/com/wineshop/service/BasketItemService.java:132-134 | the sum of stored prices: 0 for no lines, and non-negative when every price is |
| Tables.StoredPricesAreCurrent | src/main/java/com/wineshop/service/BasketItemService.java:62 | on a consistent store, the stored prices of a basket's lines add up to the catalogue unit prices times the quantities |
| BasketService.GetOrCreate | src/main/java/com/wineshop/service/BasketService.java:23-36 | an existing basket is returned and nothing changes; otherwise a new basket with the next id is stored under the session id; other sessions, lines and wines are untouched |
| BasketService.CascadeDelete | src/main/java/com/wineshop/model/BasketItem.java:27 | the item table keeps exactly the lines of other baskets, unchanged |
| BasketService.Delete | src/main/java/com/wineshop/service/BasketService.java:39-48 | an unknown session changes nothing; otherwise the session's basket and all its lines go, and everything else is kept |
| BasketService.UpdateSession | src/main/java/com/wineshop/service/BasketService.java:51-62 | unknown old id, or old = new: no change; a new id that already has a basket fails with DuplicateSessionId and changes nothing; otherwise the same basket moves to the new id and the lines and other sessions are unchanged |
| BasketService.GetOrCreateIdempotent | src/main/java/com/wineshop/service/BasketService.java:23-36 | a second get-or-create for the session returns the same basket and changes nothing |
| BasketService.NewBasketIsEmpty | src/main/java/com/wineshop/service/BasketService.java:32 | in a consistent store, a newly created basket has no lines and totals 0 |
| BasketService.GetOrCreatePreservesValid | src/main/java/com/wineshop/service/BasketService.java:23-36 | get-or-create keeps the store invariant |
| BasketService.DeletePreservesValid | src/main/java/com/wineshop/service/BasketService.java:39-48 | delete keeps the store invariant, so no line is left pointing at the deleted basket |
| BasketService.DeleteCascades | src/main/java/com/wineshop/model/BasketItem.java:27 | after delete, no line carries the deleted basket's id |
| BasketService.UpdateSessionPreservesValid | src/main/java/com/wineshop/service/BasketService.java:51-62 | renaming keeps the store invariant |
| BasketService.MovedBasketKeepsLines | src/main/java/com/wineshop/service/BasketService.java:54-57 | after renaming onto a free id, the old id is gone and the basket under the new id has the same id and exactly the same lines |
| BasketService.BasketService.constructor | src/main/java/com/wineshop/service/BasketService.java:18-20 | the service holds the given database |
| BasketService.BasketService.GetOrCreateBasket | src/main/java/com/wineshop/service/BasketService.java:23-36 | keeps the store invariant and yields exactly the basket and store that `GetOrCreate` gives |
| BasketService.BasketService.DeleteBasket | src/main/java/com/wineshop/service/BasketService.java:39-48 | keeps the store invariant and leaves the store `Delete` gives |
| BasketService.BasketService.UpdateSessionId | src/main/java/com/wineshop/service/BasketService.java:51-62 | keeps the store invariant and yields the outcome and store `UpdateSession` gives |
| BasketItemService.FindBasketBySessionId | src/main/java/com/wineshop/service/BasketItemService.java:142-148 | returns the session's basket; fails with BasketNotFound iff the session has none |
| BasketItemService.FindBasketItem | src/main/java/com/wineshop/service/BasketItemService.java:160-166 | returns the (basket, wine) line; fails with BasketItemNotFound iff there is none |
| BasketItemService.AddOrUpdate | src/main/java/com/wineshop/service/BasketItemService.java:38-66 | checks in order: basket missing gives BasketNotFound, then wine missing gives WineNotFound. It fails with NotEnoughStock iff the line's quantity plus the argument exceeds stock. On success the line holds that sum, is priced at unit price × sum, and keeps its id (a new line takes the next id); every other line, basket and wine is unchanged. A failure changes nothing |
| BasketItemService.Remove | src/main/java/com/wineshop/service/BasketItemService.java:70-85 | checks in order: basket, wine, then a missing line gives BasketItemNotFound, each changing nothing; otherwise exactly that line is deleted |
| BasketItemService.UpdateQuantity | src/main/java/com/wineshop/service/BasketItemService.java:89-108 | checks in order: basket, wine, line, then a new quantity above stock gives NotEnoughStock, each changing nothing; otherwise the line keeps its id and gets the new quantity, priced at unit price × new quantity |
| BasketItemService.GetBasketItems | src/main/java/com/wineshop/service/BasketItemService.java:111-123 | fails with BasketNotFound iff the session has no basket; otherwise lists every line of the basket exactly as stored, in strictly ascending wine id |
| BasketItemService.CalculateTotalCost | src/main/java/com/wineshop/service/BasketItemService.java:126-138 | fails with BasketNotFound iff the session has no basket; otherwise it is the sum of the listed lines' stored prices, 0 for an empty basket |
| BasketItemService.TotalAtCataloguePrices | src/main/java/com/wineshop/service/BasketItemService.java:126-138 | on a consistent store the total equals the sum over lines of catalogue unit price × quantity |
| BasketItemService.AddPreservesValid | src/main/java/com/wineshop/service/BasketItemService.java:56-63 | add keeps the store invariant: lines within stock, priced at unit price × quantity, ids unique |
| BasketItemService.RemovePreservesValid | src/main/java/com/wineshop/service/BasketItemService.java:70-85 | remove keeps the store invariant |
| BasketItemService.UpdatePreservesValid | src/main/java/com/wineshop/service/BasketItemService.java:97-105 | update keeps the store invariant |
| BasketItemService.AddTwiceIsAddOfSum | src/main/java/com/wineshop/service/BasketItemService.java:45-62 | after a successful add of q1, adding q2 has the same outcome as one add of q1+q2 and, on success, the same store: one line, quantity summed, priced on the sum |
| BasketItemService.UpdateOverwritesAdd | src/main/java/com/wineshop/service/BasketItemService.java:103-104 | an update after an add succeeds iff the new quantity is within stock, and then sets the quantity and price outright, whatever was added before |
| BasketItemService.RemoveUndoesNewLine | src/main/java/com/wineshop/service/BasketItemService.java:70-85 | removing a line that an add just created gives back the original store, except that the id counter has advanced |
| BasketItemService.AddAddUpdateExample | src/test/java/com/wineshop/integration/service/BasketItemServiceIntegrationTest.java:72-120 | for a wine at 80.00: adding 2 and then 3 gives one line of 5 at 400.00; updating it to 3 gives 240.00, and that line is listed |
| BasketItemService.StockCheckFailsAsWritten | src/main/java/com/wineshop/service/BasketItemService.java:52-57 | the stock check computed on the 32-bit sum agrees with the exact comparison whenever the sum fits in an `int` |
| BasketItemService.WrappedSumPassesStockCheck | src/main/java/com/wineshop/service/BasketItemService.java:52-57 | a line of 5 with stock 10 and an add of 2147483647: the sum wraps to -2147483644 and passes the check although the true total exceeds stock |
| BasketItemService.ExcessiveAddRefused | src/main/java/com/wineshop/service/BasketItemService.java:56-60 | with exact arithmetic, an add whose true total exceeds stock always fails with NotEnoughStock and changes nothing |
| BasketItemService.AddNeverExceedsStock | src/main/java/com/wineshop/service/BasketItemService.java:56-60 | starting from a consistent store, after any add every line in every basket is within its wine's stock |
| BasketItemService.BasketItemService.constructor | src/main/java/com/wineshop/service/BasketItemService.java:31-35 | the service holds the given database |
| BasketItemService.BasketItemService.AddOrUpdateBasketItem | src/main/java/com/wineshop/service/BasketItemService.java:38-66 | keeps the store invariant and yields the outcome and store `AddOrUpdate` gives |
| BasketItemService.BasketItemService.RemoveBasketItem | src/main/java/com/wineshop/service/BasketItemService.java:70-85 | keeps the store invariant and yields the outcome and store `Remove` gives |
| BasketItemService.BasketItemService.UpdateBasketItemQuantity | src/main/java/com/wineshop/service/BasketItemService.java:89-108 | keeps the store invariant and yields the outcome and store `UpdateQuantity` gives |

## Left out

- Controllers, views, HTTP session handling and logging are outside the core.
- The repositories are modelled as the tables of `Store`. Their queries appear as `FindById`, `FindAll`, map lookups and `LinesOf`, not as separate members.
- Transactions and concurrency are not modelled. The transaction boundary appears only as "a failed call leaves the store unchanged". Two sessions racing on one line, or on one session id, are not covered.
- JPA mechanics are not modelled: identity generation, the persistence context, `save` merging, and flush order. Generated ids come from counters in the store.
- Money is exact integer hundredths. BigDecimal scale, the DB column's precision of 10 digits and rounding are not modelled.
- String comparison in the filter is exact code-point equality. Database collation, such as case-insensitive matching, is not modelled.
- Wines.AlcoholValid: the predicate tests the value, not the way the `BigDecimal` is written. `@Digits(fraction = 1)` checks the decimal's own scale, so a value written with scale 2, such as 12.50 or 0.00, is rejected by the entity but valid in the model.
- Wines.Valid: the `@NotNull` constraints on name, price, image path, volume and stock hold through the field types, which cannot be null. A wine built with a null there, which Java accepts and validation then rejects, cannot be built in the model. So the validity condition of `Wines.NewWine` covers only non-null arguments.
- Wines.Valid: `@Size` counts UTF-16 code units, while the model counts the characters of a `seq<char>`. A name or serving temperature with characters outside the Basic Multilingual Plane is measured differently.
- `Wines.Valid`: the constraints are a predicate the store invariant requires of the catalogue. Validation is never run on save, and a value outside a column's precision is not rejected.
- `null` arguments for a session id, wine id or new quantity, which would raise a NullPointerException or a repository error, are not modelled. Ids and quantities are always present.
- Quantities and prices are unbounded integers. The one place where Java `int` wrap-around changes the behaviour is the add's sum, given under Findings.
- The `Basket` and `BasketItem` heap objects are not linked to the tables. `Entities` models their in-memory behaviour. The services are modelled on the table rows that JPA maps them to.
- Colour, flavour, type and grape are reduced to their names. Their own entities and repositories are not part of this model.
- `findWineById` in the basket-item service (BasketItemService.java:151-157) is the same lookup as `WineService.FindWineByIdOrThrow`. The model uses that one function for both.
- `removeBasketItem`'s test for a null item (BasketItemService.java:78-81) cannot be reached, because the lookup before it already fails. The model has no separate branch for it.
- `findAll(specification)` has no ORDER BY, so the database may return the rows in any order. The model fixes that order to the order of the table's sequence. The order claims of FindAll, FindAllAcceptingEverything, FindAllAnd, FindAllIsSubsequence, FilterNarrowsEachCriterion, FilterWines and FilterWinesWithoutCriteria hold for that order only. Their membership claims do not depend on it.
- `getBasketItems` orders the lines by wine id only. The order `findByBasket` returns them in does not matter, because a basket has at most one line per wine.

## Findings

| source | as written | input that shows it | evidently intended | confidence | as-written member | corrected member |
|---|---|---|---|---|---|---|
| src/main/java/com/wineshop/service/BasketItemService.java:52-57 | the existing line's quantity and the requested quantity are added as Java `int`, and the possibly wrapped sum is compared with the stock | a line of 5 bottles, stock 10, `addOrUpdateBasketItem` with quantity 2147483647: the sum wraps to -2147483644, which is not above 10, so the add passes the stock check | an add whose true total exceeds the stock is refused | low, not executed (the web controller always adds 1, so only a direct service call reaches it) | BasketItemService.WrappedSumPassesStockCheck | BasketItemService.ExcessiveAddRefused |
