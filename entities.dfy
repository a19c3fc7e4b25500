/** The two mutable entities of the basket (model/Basket.java, model/BasketItem.java) as
    heap objects: their constructors, the in-place item list of a basket, and equality that
    looks at the generated id only (`null` ids compare equal, as Lombok generates it). */
module Entities {
  import opened Common
  import opened Wines

  class BasketItem {
    var id: Option<int>
    var basket: Basket?
    var wine: Option<Wine>
    var quantity: int
    var price: Option<int>

    /** The no-argument constructor: only the quantity has a default, 1. */
    constructor Empty()
      ensures id.None? && basket == null && wine.None? && price.None?
      ensures quantity == 1
    {
      id, basket, wine, quantity, price := None, null, None, 1, None;
    }

    /** The three-argument constructor: stores the three values as given, leaves the
        basket and the id unset. */
    constructor (wine: Wine, quantity: int, price: int)
      ensures this.wine == Some(wine) && this.quantity == quantity && this.price == Some(price)
      ensures id.None? && basket == null
    {
      this.id := None;
      this.basket := null;
      this.wine := Some(wine);
      this.quantity := quantity;
      this.price := Some(price);
    }
  }

  /** Position of the first item equal to an item with this id (`|items|` when none is):
      the element `ArrayList.remove(Object)` takes out. `equals` compares ids only, so the
      test is on the id alone. */
  function FirstEqual(items: seq<BasketItem>, id: Option<int>): (k: nat)
    reads items
    ensures k <= |items|
    ensures forall j :: 0 <= j < k ==> items[j].id != id
    ensures k < |items| ==> items[k].id == id
  {
    if items == [] then 0
    else if items[0].id == id then 0
    else 1 + FirstEqual(items[1..], id)
  }

  /** The list after `ArrayList.remove(Object)` of an item with this id. */
  function RemoveFirstEqual(items: seq<BasketItem>, id: Option<int>): (r: seq<BasketItem>)
    reads items
    ensures (forall x :: x in items ==> x.id != id) ==> r == items
    ensures (exists x :: x in items && x.id == id) ==> |r| == |items| - 1
    ensures forall k :: 0 <= k < |items| && items[k].id == id
                        && (forall j :: 0 <= j < k ==> items[j].id != id)
                        ==> r == items[..k] + items[k + 1..]
  {
    var k := FirstEqual(items, id);
    if k == |items| then items else items[..k] + items[k + 1..]
  }

  /** Removing the last-appended item restores the list, provided no earlier item is equal
      to it. */
  lemma AppendThenRemoveRestores(items: seq<BasketItem>, item: BasketItem)
    requires forall x :: x in items ==> x.id != item.id
    ensures RemoveFirstEqual(items + [item], item.id) == items
  {
    var s := items + [item];
    var k := FirstEqual(s, item.id);
    assert k == |items| by {
      assert s[|items|] == item;
    }
    assert s[..k] == items;
  }

  /** Two distinct unsaved items are equal, so removing the second one takes out the first
      and leaves the second in the list. */
  lemma UnsavedItemsAreInterchangeable(a: BasketItem, b: BasketItem)
    requires a != b && a.id.None? && b.id.None?
    ensures RemoveFirstEqual([a, b], b.id) == [b]
  {
    assert FirstEqual([a, b], b.id) == 0;
  }

  class Basket {
    var id: Option<int>
    var sessionId: string
    var items: seq<BasketItem>

    /** The required-arguments constructor: the given session id and an empty list. */
    constructor (sessionId: string)
      ensures this.sessionId == sessionId && items == [] && id.None?
    {
      this.id := None;
      this.sessionId := sessionId;
      this.items := [];
    }

    /** `addItem`: appends to the list and points the item back at this basket. */
    method AddItem(item: BasketItem)
      modifies this, item
      ensures items == old(items) + [item]
      ensures item.basket == this
      ensures id == old(id) && sessionId == old(sessionId)
      ensures item.id == old(item.id) && item.wine == old(item.wine)
      ensures item.quantity == old(item.quantity) && item.price == old(item.price)
    {
      items := items + [item];
      item.basket := this;
    }

    /** `removeItem`: drops the first element equal to the item (by id), then clears the
        item's basket reference whether or not anything was removed. */
    method RemoveItem(item: BasketItem)
      modifies this, item
      ensures items == old(RemoveFirstEqual(items, item.id))
      ensures item.basket == null
      ensures id == old(id) && sessionId == old(sessionId)
      ensures item.id == old(item.id) && item.wine == old(item.wine)
      ensures item.quantity == old(item.quantity) && item.price == old(item.price)
    {
      items := RemoveFirstEqual(items, item.id);
      item.basket := null;
    }
  }

  /** Client view: appending a fresh-id item and removing it again gives back the list,
      and leaves the item detached. */
  method AddThenRemove(basket: Basket, item: BasketItem)
    requires forall x :: x in basket.items ==> x.id != item.id
    modifies basket, item
    ensures basket.items == old(basket.items)
    ensures item.basket == null
  {
    ghost var before := basket.items;
    basket.AddItem(item);
    AppendThenRemoveRestores(before, item);
    basket.RemoveItem(item);
  }
}
