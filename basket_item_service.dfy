/** Basket reconciliation (service/BasketItemService.java): adding a wine to a session's
    basket, overwriting or removing its line, listing the lines and totalling them. Every
    mutating call runs in one transaction and throws an unchecked exception on failure, so
    it either completes or leaves the store as it was. The functions give each call's
    outcome and the store afterwards; the class carries out the same steps on the shared
    database object. Stock and prices are only read. */
module BasketItemService {
  import opened Common
  import opened Wines
  import opened Tables
  import WineService

  /** `findBasketBySessionId`. */
  function FindBasketBySessionId(s: Store, sessionId: string): (r: Result<BasketRow>)
    ensures r.Ok? <==> sessionId in s.baskets
    ensures r.Ok? ==> r.value == s.baskets[sessionId]
    ensures r.Err? ==> r.error == BasketNotFound
  {
    if sessionId in s.baskets then Ok(s.baskets[sessionId]) else Err(BasketNotFound)
  }

  /** `findBasketItemByBasketAndWine`. */
  function FindBasketItem(s: Store, basket: BasketRow, wine: Wine): (r: Result<ItemRow>)
    ensures r.Ok? <==> (basket.id, wine.id) in s.items
    ensures r.Ok? ==> r.value == s.items[(basket.id, wine.id)]
    ensures r.Err? ==> r.error == BasketItemNotFound
  {
    var key := (basket.id, wine.id);
    if key in s.items then Ok(s.items[key]) else Err(BasketItemNotFound)
  }

  /** The quantity a line already holds, 0 when the basket has no line for the wine. */
  function PriorQuantity(items: map<ItemKey, ItemRow>, key: ItemKey): int {
    if key in items then items[key].quantity else 0
  }

  /** Every line except the one under `key` is as it was. */
  ghost predicate OnlyLineChanged(before: map<ItemKey, ItemRow>, after: map<ItemKey, ItemRow>, key: ItemKey) {
    forall k :: k != key ==> (k in after <==> k in before) && (k in before ==> after[k] == before[k])
  }

  /** `addOrUpdateBasketItem`. The new quantity is the line's quantity plus the argument
      (the argument alone for a new line); above the wine's stock the call fails and the
      transaction rolls back; otherwise the line is priced at unit price times quantity and
      saved, a new line getting a fresh id. */
  function AddOrUpdate(s: Store, sessionId: string, wineId: int, quantity: int): (res: (Outcome, Store))
    ensures sessionId !in s.baskets ==> res == (Failed(BasketNotFound), s)
    ensures sessionId in s.baskets && FindById(s.wines, wineId).None? ==> res == (Failed(WineNotFound), s)
    ensures res.0.Failed? ==> res.1 == s
    ensures res.0 in {Done, Failed(BasketNotFound), Failed(WineNotFound), Failed(NotEnoughStock)}
    ensures res.1.wines == s.wines && res.1.baskets == s.baskets && res.1.nextBasketId == s.nextBasketId
    ensures sessionId in s.baskets && FindById(s.wines, wineId).Some? ==>
              var wine := FindById(s.wines, wineId).value;
              var key := (s.baskets[sessionId].id, wineId);
              var total := PriorQuantity(s.items, key) + quantity;
              && (res.0 == Failed(NotEnoughStock) <==> total > wine.quantity)
              && (total <= wine.quantity ==> res.0.Done?)
              && (res.0.Done? ==>
                    && key in res.1.items
                    && res.1.items[key].quantity == total
                    && res.1.items[key].price == wine.price * total
                    && res.1.items[key].id == (if key in s.items then s.items[key].id else s.nextItemId)
                    && res.1.nextItemId == (if key in s.items then s.nextItemId else s.nextItemId + 1)
                    && OnlyLineChanged(s.items, res.1.items, key))
  {
    match FindBasketBySessionId(s, sessionId)
    case Err(e) => (Failed(e), s)
    case Ok(basket) =>
      match WineService.FindWineByIdOrThrow(s.wines, wineId)
      case Err(e) => (Failed(e), s)
      case Ok(wine) =>
        var key := (basket.id, wine.id);
        var total := PriorQuantity(s.items, key) + quantity;
        if total > wine.quantity then (Failed(NotEnoughStock), s)
        else if key in s.items then
          (Done, s.(items := s.items[key := s.items[key].(quantity := total, price := wine.price * total)]))
        else
          (Done, s.(items := s.items[key := ItemRow(s.nextItemId, total, wine.price * total)],
                    nextItemId := s.nextItemId + 1))
  }

  /** `removeBasketItem`: deletes exactly the (basket, wine) line. */
  function Remove(s: Store, sessionId: string, wineId: int): (res: (Outcome, Store))
    ensures sessionId !in s.baskets ==> res == (Failed(BasketNotFound), s)
    ensures sessionId in s.baskets && FindById(s.wines, wineId).None? ==> res == (Failed(WineNotFound), s)
    ensures sessionId in s.baskets && FindById(s.wines, wineId).Some? ==>
              var key := (s.baskets[sessionId].id, wineId);
              && (key !in s.items ==> res == (Failed(BasketItemNotFound), s))
              && (key in s.items ==> res == (Done, s.(items := s.items - {key})))
  {
    match FindBasketBySessionId(s, sessionId)
    case Err(e) => (Failed(e), s)
    case Ok(basket) =>
      match WineService.FindWineByIdOrThrow(s.wines, wineId)
      case Err(e) => (Failed(e), s)
      case Ok(wine) =>
        match FindBasketItem(s, basket, wine)
        case Err(e) => (Failed(e), s)
        case Ok(_) => (Done, s.(items := s.items - {(basket.id, wine.id)}))
  }

  /** `updateBasketItemQuantity`: overwrites the quantity (no positivity check) and
      reprices the line; the stock check comes after the three lookups. */
  function UpdateQuantity(s: Store, sessionId: string, wineId: int, newQuantity: int): (res: (Outcome, Store))
    ensures sessionId !in s.baskets ==> res == (Failed(BasketNotFound), s)
    ensures sessionId in s.baskets && FindById(s.wines, wineId).None? ==> res == (Failed(WineNotFound), s)
    ensures res.0.Failed? ==> res.1 == s
    ensures sessionId in s.baskets && FindById(s.wines, wineId).Some? ==>
              var wine := FindById(s.wines, wineId).value;
              var key := (s.baskets[sessionId].id, wineId);
              && (key !in s.items ==> res == (Failed(BasketItemNotFound), s))
              && (key in s.items && newQuantity > wine.quantity ==> res == (Failed(NotEnoughStock), s))
              && (key in s.items && newQuantity <= wine.quantity ==>
                    res == (Done, s.(items := s.items[key := ItemRow(s.items[key].id, newQuantity, wine.price * newQuantity)])))
  {
    match FindBasketBySessionId(s, sessionId)
    case Err(e) => (Failed(e), s)
    case Ok(basket) =>
      match WineService.FindWineByIdOrThrow(s.wines, wineId)
      case Err(e) => (Failed(e), s)
      case Ok(wine) =>
        match FindBasketItem(s, basket, wine)
        case Err(e) => (Failed(e), s)
        case Ok(item) =>
          if newQuantity > wine.quantity then (Failed(NotEnoughStock), s)
          else (Done, s.(items := s.items[(basket.id, wine.id) := item.(quantity := newQuantity, price := wine.price * newQuantity)]))
  }

  /** `getBasketItems`: the basket's lines in ascending wine id order. */
  ghost function GetBasketItems(s: Store, sessionId: string): (r: Result<seq<Line>>)
    ensures r.Err? <==> sessionId !in s.baskets
    ensures r.Err? ==> r.error == BasketNotFound
    ensures r.Ok? ==>
              var id := s.baskets[sessionId].id;
              && (forall i, j :: 0 <= i < j < |r.value| ==> r.value[i].wineId < r.value[j].wineId)
              && (forall i :: 0 <= i < |r.value| ==>
                    (id, r.value[i].wineId) in s.items && s.items[(id, r.value[i].wineId)] == r.value[i].row)
              && (forall k :: k in s.items && k.0 == id ==> Line(k.1, s.items[k]) in r.value)
  {
    match FindBasketBySessionId(s, sessionId)
    case Err(e) => Err(e)
    case Ok(basket) => Ok(LinesOf(s.items, basket.id))
  }

  /** `calculateTotalCost`: the sum of the stored line prices, 0 for an empty basket. */
  ghost function CalculateTotalCost(s: Store, sessionId: string): (r: Result<int>)
    ensures r.Err? <==> sessionId !in s.baskets
    ensures r.Err? ==> r.error == BasketNotFound
    ensures r.Ok? ==> GetBasketItems(s, sessionId).Ok? && r.value == SumPrices(GetBasketItems(s, sessionId).value)
    ensures r.Ok? && GetBasketItems(s, sessionId).value == [] ==> r.value == 0
  {
    match FindBasketBySessionId(s, sessionId)
    case Err(e) => Err(e)
    case Ok(basket) => Ok(SumPrices(LinesOf(s.items, basket.id)))
  }

  /** On a consistent store the total is the catalogue unit price times quantity, summed
      over the lines. */
  lemma TotalAtCataloguePrices(s: Store, sessionId: string)
    requires StoreValid(s) && sessionId in s.baskets
    ensures CalculateTotalCost(s, sessionId).value
         == SumAtUnitPrice(s.wines, GetBasketItems(s, sessionId).value)
  {
    StoredPricesAreCurrent(s, GetBasketItems(s, sessionId).value, s.baskets[sessionId].id);
  }

  /** Writing one line that satisfies the line invariant, under an existing basket, with
      an id no other line has, keeps the store consistent. */
  lemma {:induction false} PutLinePreservesValid(s: Store, key: ItemKey, row: ItemRow, nextItemId: int)
    requires StoreValid(s) && s.nextItemId <= nextItemId
    requires BasketIdInUse(s.baskets, key.0) && 0 <= row.id < nextItemId
    requires FindById(s.wines, key.1).Some?
    requires row.quantity <= FindById(s.wines, key.1).value.quantity
    requires row.price == FindById(s.wines, key.1).value.price * row.quantity
    requires forall k :: k in s.items && k != key ==> s.items[k].id != row.id
    ensures StoreValid(s.(items := s.items[key := row], nextItemId := nextItemId))
  {
    var s1 := s.(items := s.items[key := row], nextItemId := nextItemId);
    PutLineKeepsLinesValid(s, key, row, nextItemId);
    PutLineKeepsIdsUnique(s, key, row);
    assert BasketsValid(s1);
  }

  lemma PutLineKeepsLinesValid(s: Store, key: ItemKey, row: ItemRow, nextItemId: int)
    requires StoreValid(s) && s.nextItemId <= nextItemId
    requires BasketIdInUse(s.baskets, key.0) && 0 <= row.id < nextItemId
    requires FindById(s.wines, key.1).Some?
    requires row.quantity <= FindById(s.wines, key.1).value.quantity
    requires row.price == FindById(s.wines, key.1).value.price * row.quantity
    ensures var s1 := s.(items := s.items[key := row], nextItemId := nextItemId);
            forall k :: k in s1.items ==> LineValid(s1, k)
  {
    var s1 := s.(items := s.items[key := row], nextItemId := nextItemId);
    forall k | k in s1.items ensures LineValid(s1, k) {
      if k != key {
        assert LineValid(s, k);
      }
    }
  }

  lemma PutLineKeepsIdsUnique(s: Store, key: ItemKey, row: ItemRow)
    requires forall k1, k2 :: k1 in s.items && k2 in s.items && s.items[k1].id == s.items[k2].id ==> k1 == k2
    requires forall k :: k in s.items && k != key ==> s.items[k].id != row.id
    ensures var items := s.items[key := row];
            forall k1, k2 :: k1 in items && k2 in items && items[k1].id == items[k2].id ==> k1 == k2
  {
    var items := s.items[key := row];
    forall k1, k2 | k1 in items && k2 in items && items[k1].id == items[k2].id
      ensures k1 == k2
    {
      if k1 != key && k2 != key {
        assert items[k1] == s.items[k1] && items[k2] == s.items[k2];
      }
    }
  }

  /** The store a successful add leaves, written out: the line under `key` holds the
      summed quantity at its price, keeping its id or taking the next one. */
  lemma AddOrUpdateDone(s: Store, sessionId: string, wineId: int, quantity: int,
                        wine: Wine, key: ItemKey, total: int, id: int, next: int)
    requires sessionId in s.baskets && FindById(s.wines, wineId) == Some(wine)
    requires key == (s.baskets[sessionId].id, wineId)
    requires total == PriorQuantity(s.items, key) + quantity && total <= wine.quantity
    requires id == (if key in s.items then s.items[key].id else s.nextItemId)
    requires next == (if key in s.items then s.nextItemId else s.nextItemId + 1)
    ensures AddOrUpdate(s, sessionId, wineId, quantity)
            == (Done, s.(items := s.items[key := ItemRow(id, total, wine.price * total)], nextItemId := next))
  {
  }

  lemma {:induction false} AddPreservesValid(s: Store, sessionId: string, wineId: int, quantity: int)
    requires StoreValid(s)
    ensures StoreValid(AddOrUpdate(s, sessionId, wineId, quantity).1)
  {
    var res := AddOrUpdate(s, sessionId, wineId, quantity);
    if res.0.Failed? {
      assert res.1 == s;
    } else {
      var wine := FindById(s.wines, wineId).value;
      var key := (s.baskets[sessionId].id, wineId);
      var total := PriorQuantity(s.items, key) + quantity;
      var id := if key in s.items then s.items[key].id else s.nextItemId;
      var next := if key in s.items then s.nextItemId else s.nextItemId + 1;
      AddOrUpdateDone(s, sessionId, wineId, quantity, wine, key, total, id, next);
      forall k | k in s.items && k != key ensures s.items[k].id != id {
        assert LineValid(s, k);
      }
      PutLinePreservesValid(s, key, ItemRow(id, total, wine.price * total), next);
    }
  }

  lemma {:induction false} RemovePreservesValid(s: Store, sessionId: string, wineId: int)
    requires StoreValid(s)
    ensures StoreValid(Remove(s, sessionId, wineId).1)
  {
    var s1 := Remove(s, sessionId, wineId).1;
    forall k | k in s1.items ensures LineValid(s1, k) {
      assert LineValid(s, k);
    }
  }

  lemma {:induction false} UpdatePreservesValid(s: Store, sessionId: string, wineId: int, newQuantity: int)
    requires StoreValid(s)
    ensures StoreValid(UpdateQuantity(s, sessionId, wineId, newQuantity).1)
  {
    var (r, s1) := UpdateQuantity(s, sessionId, wineId, newQuantity);
    if r.Done? {
      var wine := FindById(s.wines, wineId).value;
      var key := (s.baskets[sessionId].id, wineId);
      assert LineValid(s, key);
      forall k | k in s.items && k != key ensures s.items[k].id != s.items[key].id {
      }
      PutLinePreservesValid(s, key, ItemRow(s.items[key].id, newQuantity, wine.price * newQuantity), s.nextItemId);
    }
  }

  /** Adding q1 and then q2 of a wine, when the first add succeeds, has the outcome of
      adding q1 + q2 at once and, when that succeeds, the same store: one line, quantity
      summed, priced on the sum. */
  lemma AddTwiceIsAddOfSum(s: Store, sessionId: string, wineId: int, q1: int, q2: int)
    requires AddOrUpdate(s, sessionId, wineId, q1).0.Done?
    ensures var (r2, s2) := AddOrUpdate(AddOrUpdate(s, sessionId, wineId, q1).1, sessionId, wineId, q2);
            var (r, s') := AddOrUpdate(s, sessionId, wineId, q1 + q2);
            r2 == r && (r.Done? ==> s2 == s')
  {
    var wine := FindById(s.wines, wineId).value;
    var key := (s.baskets[sessionId].id, wineId);
    var t1 := PriorQuantity(s.items, key) + q1;
    var id := if key in s.items then s.items[key].id else s.nextItemId;
    var next := if key in s.items then s.nextItemId else s.nextItemId + 1;
    AddOrUpdateDone(s, sessionId, wineId, q1, wine, key, t1, id, next);
    var s1 := s.(items := s.items[key := ItemRow(id, t1, wine.price * t1)], nextItemId := next);
    if t1 + q2 <= wine.quantity {
      SecondAddWithinStock(s, s1, sessionId, wineId, q1, q2, wine, key, t1, id, next);
    } else {
      assert PriorQuantity(s1.items, key) == t1;
      ExcessiveAddRefused(s1, sessionId, wineId, q2);
      ExcessiveAddRefused(s, sessionId, wineId, q1 + q2);
    }
  }

  /** The within-stock case of `AddTwiceIsAddOfSum`, on the store the first add left. */
  lemma SecondAddWithinStock(s: Store, s1: Store, sessionId: string, wineId: int, q1: int, q2: int,
                             wine: Wine, key: ItemKey, t1: int, id: int, next: int)
    requires sessionId in s.baskets && FindById(s.wines, wineId) == Some(wine)
    requires key == (s.baskets[sessionId].id, wineId)
    requires t1 == PriorQuantity(s.items, key) + q1 && t1 + q2 <= wine.quantity
    requires id == (if key in s.items then s.items[key].id else s.nextItemId)
    requires next == (if key in s.items then s.nextItemId else s.nextItemId + 1)
    requires s1 == s.(items := s.items[key := ItemRow(id, t1, wine.price * t1)], nextItemId := next)
    ensures AddOrUpdate(s1, sessionId, wineId, q2) == AddOrUpdate(s, sessionId, wineId, q1 + q2)
  {
    var line := ItemRow(id, t1 + q2, wine.price * (t1 + q2));
    assert PriorQuantity(s1.items, key) == t1;
    AddOrUpdateDone(s1, sessionId, wineId, q2, wine, key, t1 + q2, id, next);
    AddOrUpdateDone(s, sessionId, wineId, q1 + q2, wine, key, t1 + q2, id, next);
    assert s1.items[key := line] == s.items[key := line];
  }

  /** Updating after an add overwrites rather than accumulates: the line ends with exactly
      the new quantity, priced on it, whatever was added before. */
  lemma UpdateOverwritesAdd(s: Store, sessionId: string, wineId: int, q: int, newQuantity: int)
    requires AddOrUpdate(s, sessionId, wineId, q).0.Done?
    ensures var wine := FindById(s.wines, wineId).value;
            var key := (s.baskets[sessionId].id, wineId);
            var (r, s2) := UpdateQuantity(AddOrUpdate(s, sessionId, wineId, q).1, sessionId, wineId, newQuantity);
            && (r.Done? <==> newQuantity <= wine.quantity)
            && (r.Done? ==> s2.items[key].quantity == newQuantity && s2.items[key].price == wine.price * newQuantity)
  {
  }

  /** Removing the line that an add just created gives back the original lines. */
  lemma RemoveUndoesNewLine(s: Store, sessionId: string, wineId: int, q: int)
    requires AddOrUpdate(s, sessionId, wineId, q).0.Done?
    requires (s.baskets[sessionId].id, wineId) !in s.items
    ensures var (r, s2) := Remove(AddOrUpdate(s, sessionId, wineId, q).1, sessionId, wineId);
            r.Done? && s2 == s.(nextItemId := s.nextItemId + 1)
  {
    var key := (s.baskets[sessionId].id, wineId);
    var s1 := AddOrUpdate(s, sessionId, wineId, q).1;
    assert s1.items - {key} == s.items;
  }

  /** A wine at 80.00 with stock for at least 5: adding 2 and then 3 leaves one line of 5
      priced 400.00; updating that line to 3 reprices it to 240.00. */
  lemma AddAddUpdateExample(s: Store, sessionId: string, wine: Wine)
    requires StoreValid(s) && sessionId in s.baskets && wine in s.wines
    requires wine.price == 8000 && wine.quantity >= 5
    requires (s.baskets[sessionId].id, wine.id) !in s.items
    ensures var key := (s.baskets[sessionId].id, wine.id);
            var (r1, s1) := AddOrUpdate(s, sessionId, wine.id, 2);
            var (r2, s2) := AddOrUpdate(s1, sessionId, wine.id, 3);
            var (r3, s3) := UpdateQuantity(s2, sessionId, wine.id, 3);
            && r1.Done? && r2.Done? && r3.Done?
            && s2.items[key] == ItemRow(s.nextItemId, 5, 40000)
            && s3.items[key] == ItemRow(s.nextItemId, 3, 24000)
            && Line(wine.id, ItemRow(s.nextItemId, 3, 24000)) in GetBasketItems(s3, sessionId).value
  {
    var i :| 0 <= i < |s.wines| && s.wines[i] == wine;
    FindByIdUnique(s.wines, i);
  }

  // The add path's `getQuantity() + quantity` is Java `int` arithmetic.

  /** The stock check as written: the sum is computed in 32 bits before the comparison. */
  function StockCheckFailsAsWritten(prior: int, quantity: int, stock: int): (fails: bool)
    requires IsInt32(prior) && IsInt32(quantity)
    ensures IsInt32(prior + quantity) ==> (fails <==> prior + quantity > stock)
  {
    Wrap32(prior + quantity) > stock
  }

  /** A line of 5 bottles with a stock of 10 accepts an add of 2147483647: the sum wraps to
      a negative number, which is not above the stock. */
  lemma WrappedSumPassesStockCheck()
    ensures IsInt32(5) && IsInt32(INT_MAX)
    ensures !StockCheckFailsAsWritten(5, INT_MAX, 10)
    ensures 5 + INT_MAX > 10
    ensures Wrap32(5 + INT_MAX) == -2147483644
  {
  }

  /** With the exact sum, which the model uses, an add whose true total exceeds the
      wine's stock is always refused and changes nothing. */
  lemma ExcessiveAddRefused(s: Store, sessionId: string, wineId: int, quantity: int)
    requires sessionId in s.baskets && FindById(s.wines, wineId).Some?
    requires PriorQuantity(s.items, (s.baskets[sessionId].id, wineId)) + quantity
             > FindById(s.wines, wineId).value.quantity
    ensures AddOrUpdate(s, sessionId, wineId, quantity) == (Failed(NotEnoughStock), s)
  {
  }

  /** On a consistent store, every successful add leaves every line of every basket
      within its wine's stock. */
  lemma {:induction false} AddNeverExceedsStock(s: Store, sessionId: string, wineId: int, quantity: int)
    requires StoreValid(s)
    ensures var s1 := AddOrUpdate(s, sessionId, wineId, quantity).1;
            forall k :: k in s1.items ==>
              FindById(s1.wines, k.1).Some? && s1.items[k].quantity <= FindById(s1.wines, k.1).value.quantity
  {
    AddPreservesValid(s, sessionId, wineId, quantity);
    var s1 := AddOrUpdate(s, sessionId, wineId, quantity).1;
    forall k | k in s1.items
      ensures FindById(s1.wines, k.1).Some? && s1.items[k].quantity <= FindById(s1.wines, k.1).value.quantity
    {
      assert LineValid(s1, k);
    }
  }

  /** The service object; it shares the database with the basket service. */
  class BasketItemService {
    const db: Database

    constructor (db: Database)
      ensures this.db == db
    {
      this.db := db;
    }

    method AddOrUpdateBasketItem(sessionId: string, wineId: int, quantity: int) returns (r: Outcome)
      requires db.Valid()
      modifies db
      ensures db.Valid()
      ensures (r, db.State()) == AddOrUpdate(old(db.State()), sessionId, wineId, quantity)
    {
      ghost var s := db.State();
      AddPreservesValid(s, sessionId, wineId, quantity);
      if sessionId !in db.baskets {
        assert AddOrUpdate(s, sessionId, wineId, quantity) == (Failed(BasketNotFound), s);
        return Failed(BasketNotFound);
      }
      var basket := db.baskets[sessionId];
      var found := FindById(db.wines, wineId);
      if found.None? {
        assert AddOrUpdate(s, sessionId, wineId, quantity) == (Failed(WineNotFound), s);
        return Failed(WineNotFound);
      }
      var wine := found.value;
      var key := (basket.id, wine.id);
      ghost var total := PriorQuantity(s.items, key) + quantity;
      var isNew := key !in db.items;
      var item := if isNew then ItemRow(db.nextItemId, quantity, wine.price) else db.items[key];
      if !isNew {
        item := item.(quantity := item.quantity + quantity);
      }
      assert item.quantity == total;
      if item.quantity > wine.quantity {
        ExcessiveAddRefused(s, sessionId, wineId, quantity);
        return Failed(NotEnoughStock);
      }
      item := item.(price := wine.price * item.quantity);
      ghost var next := if isNew then s.nextItemId + 1 else s.nextItemId;
      AddOrUpdateDone(s, sessionId, wineId, quantity, wine, key, total, item.id, next);
      db.items := db.items[key := item];
      if isNew {
        db.nextItemId := db.nextItemId + 1;
      }
      assert db.State() == s.(items := s.items[key := item], nextItemId := next);
      r := Done;
    }

    method RemoveBasketItem(sessionId: string, wineId: int) returns (r: Outcome)
      requires db.Valid()
      modifies db
      ensures db.Valid()
      ensures (r, db.State()) == Remove(old(db.State()), sessionId, wineId)
    {
      ghost var s := db.State();
      RemovePreservesValid(s, sessionId, wineId);
      if sessionId !in db.baskets {
        return Failed(BasketNotFound);
      }
      var basket := db.baskets[sessionId];
      var found := FindById(db.wines, wineId);
      if found.None? {
        return Failed(WineNotFound);
      }
      var key := (basket.id, found.value.id);
      if key !in db.items {
        return Failed(BasketItemNotFound);
      }
      db.items := db.items - {key};
      assert db.State() == s.(items := s.items - {key});
      r := Done;
    }

    method UpdateBasketItemQuantity(sessionId: string, wineId: int, newQuantity: int) returns (r: Outcome)
      requires db.Valid()
      modifies db
      ensures db.Valid()
      ensures (r, db.State()) == UpdateQuantity(old(db.State()), sessionId, wineId, newQuantity)
    {
      ghost var s := db.State();
      UpdatePreservesValid(s, sessionId, wineId, newQuantity);
      if sessionId !in db.baskets {
        return Failed(BasketNotFound);
      }
      var basket := db.baskets[sessionId];
      var found := FindById(db.wines, wineId);
      if found.None? {
        return Failed(WineNotFound);
      }
      var wine := found.value;
      var key := (basket.id, wine.id);
      if key !in db.items {
        return Failed(BasketItemNotFound);
      }
      if newQuantity > wine.quantity {
        return Failed(NotEnoughStock);
      }
      var item := db.items[key];
      item := item.(quantity := newQuantity, price := wine.price * newQuantity);
      db.items := db.items[key := item];
      assert db.State() == s.(items := s.items[key := item]);
      r := Done;
    }
  }
}
