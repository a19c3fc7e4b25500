/** The persistent state the basket services work on: the wine table, the basket table
    indexed by its unique `session_id` column, and the basket-item table indexed by its
    unique (basket, wine) column pair. Generated ids come from two counters. */
module Tables {
  import opened Common
  import opened Wines

  /** A row of `baskets`. */
  datatype BasketRow = BasketRow(id: int, sessionId: string)

  /** A row of `basket_items`; its basket and wine ids are the key it is stored under. */
  datatype ItemRow = ItemRow(id: int, quantity: int, price: int)

  /** (basket id, wine id): the unique constraint of `basket_items`, so a basket holds at
      most one line per wine by construction. */
  type ItemKey = (int, int)

  datatype Store = Store(
    wines: seq<Wine>,
    baskets: map<string, BasketRow>,
    items: map<ItemKey, ItemRow>,
    nextBasketId: int,
    nextItemId: int)

  /** One line of a basket as the listing returns it: the wine it refers to and its row. */
  datatype Line = Line(wineId: int, row: ItemRow)

  ghost predicate BasketIdInUse(baskets: map<string, BasketRow>, id: int) {
    exists sid :: sid in baskets && baskets[sid].id == id
  }

  /** Every basket is stored under its own session id, has a generated id below the
      counter, and no two baskets share an id. */
  predicate BasketsValid(s: Store) {
    && 0 <= s.nextBasketId
    && (forall sid :: sid in s.baskets ==>
          s.baskets[sid].sessionId == sid && 0 <= s.baskets[sid].id < s.nextBasketId)
    && (forall a, b :: a in s.baskets && b in s.baskets && s.baskets[a].id == s.baskets[b].id ==> a == b)
  }

  /** A line belongs to an existing basket, refers to a catalogue wine, does not exceed
      that wine's stock, and is priced at unit price times quantity. */
  ghost predicate LineValid(s: Store, k: ItemKey)
    requires k in s.items
  {
    var row := s.items[k];
    && BasketIdInUse(s.baskets, k.0)
    && 0 <= row.id < s.nextItemId
    && FindById(s.wines, k.1).Some?
    && row.quantity <= FindById(s.wines, k.1).value.quantity
    && row.price == FindById(s.wines, k.1).value.price * row.quantity
  }

  ghost predicate ItemsValid(s: Store) {
    && 0 <= s.nextItemId
    && (forall k :: k in s.items ==> LineValid(s, k))
    && (forall k1, k2 :: k1 in s.items && k2 in s.items && s.items[k1].id == s.items[k2].id ==> k1 == k2)
  }

  /** The catalogue satisfies the wine constraints and its ids are a primary key. */
  predicate CatalogueValid(wines: seq<Wine>) {
    UniqueIds(wines) && forall w :: w in wines ==> Wines.Valid(w)
  }

  ghost predicate StoreValid(s: Store) {
    CatalogueValid(s.wines) && BasketsValid(s) && ItemsValid(s)
  }

  /** The store before any basket exists. */
  function Initial(wines: seq<Wine>): (s: Store)
    requires CatalogueValid(wines)
    ensures StoreValid(s) && s.baskets == map[] && s.items == map[] && s.wines == wines
  {
    Store(wines, map[], map[], 0, 0)
  }

  /** Least element of a non-empty finite set. */
  ghost function MinOf(ids: set<int>): (m: int)
    requires ids != {}
    ensures m in ids && forall y :: y in ids ==> m <= y
    decreases ids
  {
    assert exists e :: e in ids by {
      if forall e :: e !in ids {
        assert false;
      }
    }
    var e :| e in ids;
    assert forall y :: y in ids ==> y == e || y in ids - {e};
    if ids - {e} == {} then e
    else
      var m' := MinOf(ids - {e});
      if e <= m' then e else m'
  }

  /** The elements of a finite set in ascending order. */
  ghost function Ascending(ids: set<int>): (r: seq<int>)
    ensures forall i, j :: 0 <= i < j < |r| ==> r[i] < r[j]
    ensures forall x :: x in r <==> x in ids
    decreases ids
  {
    if ids == {} then []
    else
      var m := MinOf(ids);
      [m] + Ascending(ids - {m})
  }

  /** The wine ids that have a line in the given basket. */
  ghost function WineIdsIn(items: map<ItemKey, ItemRow>, basketId: int): (ids: set<int>)
    ensures forall x :: x in ids <==> (basketId, x) in items
  {
    var ids := set k | k in items && k.0 == basketId :: k.1;
    assert forall x :: (basketId, x) in items ==> x in ids by {
      forall x | (basketId, x) in items ensures x in ids {
        var k := (basketId, x);
        assert k in items && k.0 == basketId && k.1 == x;
      }
    }
    ids
  }

  /** The basket's lines for the given wine ids, in the order of the ids. */
  function LinesFor(items: map<ItemKey, ItemRow>, basketId: int, ids: seq<int>): (r: seq<Line>)
    requires forall i :: 0 <= i < |ids| ==> (basketId, ids[i]) in items
    ensures |r| == |ids|
    ensures forall i :: 0 <= i < |r| ==> r[i] == Line(ids[i], items[(basketId, ids[i])])
  {
    if ids == [] then []
    else [Line(ids[0], items[(basketId, ids[0])])] + LinesFor(items, basketId, ids[1..])
  }

  /** `findByBasket` sorted by wine id: every line of the basket, once, in ascending wine
      id order. */
  ghost function LinesOf(items: map<ItemKey, ItemRow>, basketId: int): (r: seq<Line>)
    ensures forall i, j :: 0 <= i < j < |r| ==> r[i].wineId < r[j].wineId
    ensures forall i :: 0 <= i < |r| ==>
              (basketId, r[i].wineId) in items && items[(basketId, r[i].wineId)] == r[i].row
    ensures forall k :: k in items && k.0 == basketId ==> Line(k.1, items[k]) in r
  {
    var ids := Ascending(WineIdsIn(items, basketId));
    assert forall i :: 0 <= i < |ids| ==> ids[i] in ids;
    var r := LinesFor(items, basketId, ids);
    assert forall k :: k in items && k.0 == basketId ==> Line(k.1, items[k]) in r by {
      forall k | k in items && k.0 == basketId ensures Line(k.1, items[k]) in r {
        assert k == (basketId, k.1);
        assert k.1 in ids;
        var i :| 0 <= i < |ids| && ids[i] == k.1;
        assert r[i] == Line(k.1, items[k]);
      }
    }
    r
  }

  /** The lines stored under a basket id that is not in use: there are none. */
  lemma {:induction false} NoLinesForUnusedBasket(s: Store, basketId: int)
    requires StoreValid(s) && !BasketIdInUse(s.baskets, basketId)
    ensures LinesOf(s.items, basketId) == []
  {
    var r := LinesOf(s.items, basketId);
    if r != [] {
      assert false;
    }
  }

  /** Sum of the stored line prices (`reduce(ZERO, add)`). */
  function SumPrices(lines: seq<Line>): (total: int)
    ensures lines == [] ==> total == 0
    ensures (forall i :: 0 <= i < |lines| ==> lines[i].row.price >= 0) ==> total >= 0
  {
    if lines == [] then 0 else lines[0].row.price + SumPrices(lines[1..])
  }

  /** The price a wine id would be charged at, 0 for an id not in the catalogue. */
  function UnitPrice(wines: seq<Wine>, wineId: int): int {
    match FindById(wines, wineId)
    case Some(w) => w.price
    case None => 0
  }

  /** Sum over the lines of unit price times quantity, recomputed from the catalogue. */
  function SumAtUnitPrice(wines: seq<Wine>, lines: seq<Line>): int {
    if lines == [] then 0
    else UnitPrice(wines, lines[0].wineId) * lines[0].row.quantity + SumAtUnitPrice(wines, lines[1..])
  }

  /** On a consistent store the stored line prices add up to the catalogue prices times the
      quantities: the stored prices are never stale. */
  lemma {:induction false} StoredPricesAreCurrent(s: Store, lines: seq<Line>, basketId: int)
    requires StoreValid(s)
    requires forall i :: 0 <= i < |lines| ==>
               (basketId, lines[i].wineId) in s.items && s.items[(basketId, lines[i].wineId)] == lines[i].row
    ensures SumPrices(lines) == SumAtUnitPrice(s.wines, lines)
  {
    if lines != [] {
      var k := (basketId, lines[0].wineId);
      assert LineValid(s, k);
      StoredPricesAreCurrent(s, lines[1..], basketId);
    }
  }

  /** The database object the services share; its fields are the tables of `Store`. */
  class Database {
    var wines: seq<Wine>
    var baskets: map<string, BasketRow>
    var items: map<ItemKey, ItemRow>
    var nextBasketId: int
    var nextItemId: int

    function State(): Store
      reads this
    {
      Store(wines, baskets, items, nextBasketId, nextItemId)
    }

    ghost predicate Valid()
      reads this
    {
      StoreValid(State())
    }

    constructor (wines: seq<Wine>)
      requires CatalogueValid(wines)
      ensures State() == Initial(wines) && Valid()
    {
      this.wines := wines;
      this.baskets := map[];
      this.items := map[];
      this.nextBasketId := 0;
      this.nextItemId := 0;
    }
  }
}
