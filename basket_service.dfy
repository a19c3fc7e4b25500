/** The per-session basket lifecycle (service/BasketService.java): get-or-create, delete
    (with the cascade onto the basket's lines) and renaming a basket to another session id.
    The functions give each call's result and the store afterwards; the class carries out
    the same steps on the shared database object. */
module BasketService {
  import opened Common
  import opened Tables

  /** Sessions other than `sid` keep exactly the basket they had. */
  ghost predicate OthersUntouched(before: map<string, BasketRow>, after: map<string, BasketRow>, sid: string) {
    forall other :: other != sid ==>
      (other in after <==> other in before) && (other in before ==> after[other] == before[other])
  }

  /** `getOrCreateBasket`. */
  function GetOrCreate(s: Store, sessionId: string): (res: (BasketRow, Store))
    ensures sessionId in s.baskets ==> res == (s.baskets[sessionId], s)
    ensures sessionId !in s.baskets ==>
              && res.0 == BasketRow(s.nextBasketId, sessionId)
              && res.1 == s.(baskets := res.1.baskets, nextBasketId := s.nextBasketId + 1)
    ensures sessionId in res.1.baskets && res.1.baskets[sessionId] == res.0
    ensures OthersUntouched(s.baskets, res.1.baskets, sessionId)
    ensures res.1.items == s.items && res.1.wines == s.wines
  {
    if sessionId in s.baskets then (s.baskets[sessionId], s)
    else
      var basket := BasketRow(s.nextBasketId, sessionId);
      (basket, s.(baskets := s.baskets[sessionId := basket], nextBasketId := s.nextBasketId + 1))
  }

  /** The item table without the lines of one basket: the `ON DELETE CASCADE` of the
      item table's basket column. */
  function CascadeDelete(items: map<ItemKey, ItemRow>, basketId: int): (r: map<ItemKey, ItemRow>)
    ensures forall k :: k in r <==> k in items && k.0 != basketId
    ensures forall k :: k in r ==> r[k] == items[k]
  {
    map k | k in items && k.0 != basketId :: items[k]
  }

  /** `deleteBasket`: the basket row goes, and the database cascade removes its lines. */
  function Delete(s: Store, sessionId: string): (r: Store)
    ensures sessionId !in s.baskets ==> r == s
    ensures sessionId !in r.baskets
    ensures OthersUntouched(s.baskets, r.baskets, sessionId)
    ensures sessionId in s.baskets ==>
              forall k :: k in r.items <==> k in s.items && k.0 != s.baskets[sessionId].id
    ensures forall k :: k in r.items ==> k in s.items && r.items[k] == s.items[k]
    ensures r.wines == s.wines && r.nextBasketId == s.nextBasketId && r.nextItemId == s.nextItemId
  {
    if sessionId !in s.baskets then s
    else
      s.(baskets := s.baskets - {sessionId},
         items := CascadeDelete(s.items, s.baskets[sessionId].id))
  }

  /** `updateSessionId`. Renaming onto a session id that already has a basket breaks the
      unique `session_id` column, so the save fails and nothing changes. */
  function UpdateSession(s: Store, oldSessionId: string, newSessionId: string): (res: (Outcome, Store))
    ensures oldSessionId !in s.baskets ==> res == (Done, s)
    ensures oldSessionId == newSessionId ==> res == (Done, s)
    ensures res.0.Failed? <==>
              oldSessionId in s.baskets && oldSessionId != newSessionId && newSessionId in s.baskets
    ensures res.0.Failed? ==> res == (Failed(DuplicateSessionId), s)
    ensures res.0.Done? && oldSessionId in s.baskets && oldSessionId != newSessionId ==>
              && oldSessionId !in res.1.baskets && newSessionId in res.1.baskets
              && res.1.baskets[newSessionId] == s.baskets[oldSessionId].(sessionId := newSessionId)
    ensures forall other :: other != oldSessionId && other != newSessionId ==>
              (other in res.1.baskets <==> other in s.baskets)
              && (other in s.baskets ==> res.1.baskets[other] == s.baskets[other])
    ensures res.1.items == s.items && res.1.wines == s.wines
    ensures res.1.nextBasketId == s.nextBasketId && res.1.nextItemId == s.nextItemId
  {
    if oldSessionId !in s.baskets then (Done, s)
    else if oldSessionId == newSessionId then (Done, s)
    else if newSessionId in s.baskets then (Failed(DuplicateSessionId), s)
    else
      var basket := s.baskets[oldSessionId].(sessionId := newSessionId);
      (Done, s.(baskets := (s.baskets - {oldSessionId})[newSessionId := basket]))
  }

  /** Calling get-or-create twice returns the same basket and leaves one basket for the
      session. */
  lemma GetOrCreateIdempotent(s: Store, sessionId: string)
    ensures var (b1, s1) := GetOrCreate(s, sessionId);
            GetOrCreate(s1, sessionId) == (b1, s1)
  {
  }

  /** A newly created basket is empty and costs nothing. */
  lemma {:induction false} NewBasketIsEmpty(s: Store, sessionId: string)
    requires StoreValid(s) && sessionId !in s.baskets
    ensures var (b, s1) := GetOrCreate(s, sessionId);
            LinesOf(s1.items, b.id) == [] && SumPrices(LinesOf(s1.items, b.id)) == 0
  {
    var (b, s1) := GetOrCreate(s, sessionId);
    assert !BasketIdInUse(s.baskets, b.id);
    NoLinesForUnusedBasket(s, b.id);
  }

  lemma {:induction false} GetOrCreatePreservesValid(s: Store, sessionId: string)
    requires StoreValid(s)
    ensures StoreValid(GetOrCreate(s, sessionId).1)
  {
    var s1 := GetOrCreate(s, sessionId).1;
    if sessionId !in s.baskets {
      forall k | k in s1.items ensures LineValid(s1, k) {
        assert LineValid(s, k);
        var sid :| sid in s.baskets && s.baskets[sid].id == k.0;
        assert s1.baskets[sid].id == k.0;
      }
    }
  }

  lemma {:induction false} DeletePreservesValid(s: Store, sessionId: string)
    requires StoreValid(s)
    ensures StoreValid(Delete(s, sessionId))
  {
    var r := Delete(s, sessionId);
    if sessionId in s.baskets {
      forall k | k in r.items ensures LineValid(r, k) {
        assert LineValid(s, k);
        var sid :| sid in s.baskets && s.baskets[sid].id == k.0;
        assert sid != sessionId;
        assert r.baskets[sid].id == k.0;
      }
    }
  }

  /** After delete, no line of the deleted basket is left. */
  lemma DeleteCascades(s: Store, sessionId: string)
    requires sessionId in s.baskets
    ensures forall k :: k in Delete(s, sessionId).items ==> k.0 != s.baskets[sessionId].id
  {
  }

  lemma {:induction false} UpdateSessionPreservesValid(s: Store, oldSessionId: string, newSessionId: string)
    requires StoreValid(s)
    ensures StoreValid(UpdateSession(s, oldSessionId, newSessionId).1)
  {
    var r := UpdateSession(s, oldSessionId, newSessionId).1;
    if oldSessionId in s.baskets && oldSessionId != newSessionId && newSessionId !in s.baskets {
      forall k | k in r.items ensures LineValid(r, k) {
        assert LineValid(s, k);
        var sid :| sid in s.baskets && s.baskets[sid].id == k.0;
        var sid' := if sid == oldSessionId then newSessionId else sid;
        assert r.baskets[sid'].id == k.0;
      }
    }
  }

  /** Renaming moves the same basket: under the new session id it has the old id and
      exactly the lines it had under the old session id. */
  lemma MovedBasketKeepsLines(s: Store, oldSessionId: string, newSessionId: string)
    requires oldSessionId in s.baskets && newSessionId !in s.baskets
    ensures var r := UpdateSession(s, oldSessionId, newSessionId).1;
            && oldSessionId !in r.baskets
            && r.baskets[newSessionId].id == s.baskets[oldSessionId].id
            && LinesOf(r.items, r.baskets[newSessionId].id) == LinesOf(s.items, s.baskets[oldSessionId].id)
  {
  }

  /** The service object; it shares the database with the basket-item service. */
  class BasketService {
    const db: Database

    constructor (db: Database)
      ensures this.db == db
    {
      this.db := db;
    }

    method GetOrCreateBasket(sessionId: string) returns (basket: BasketRow)
      requires db.Valid()
      modifies db
      ensures db.Valid()
      ensures (basket, db.State()) == GetOrCreate(old(db.State()), sessionId)
    {
      GetOrCreatePreservesValid(db.State(), sessionId);
      if sessionId in db.baskets {
        return db.baskets[sessionId];
      }
      basket := BasketRow(db.nextBasketId, sessionId);
      db.baskets := db.baskets[sessionId := basket];
      db.nextBasketId := db.nextBasketId + 1;
    }

    method DeleteBasket(sessionId: string)
      requires db.Valid()
      modifies db
      ensures db.Valid()
      ensures db.State() == Delete(old(db.State()), sessionId)
    {
      DeletePreservesValid(db.State(), sessionId);
      if sessionId in db.baskets {
        var basket := db.baskets[sessionId];
        db.baskets := db.baskets - {sessionId};
        db.items := CascadeDelete(db.items, basket.id);
      }
    }

    method UpdateSessionId(oldSessionId: string, newSessionId: string) returns (r: Outcome)
      requires db.Valid()
      modifies db
      ensures db.Valid()
      ensures (r, db.State()) == UpdateSession(old(db.State()), oldSessionId, newSessionId)
    {
      UpdateSessionPreservesValid(db.State(), oldSessionId, newSessionId);
      if oldSessionId !in db.baskets {
        return Done;
      }
      var basket := db.baskets[oldSessionId];
      basket := basket.(sessionId := newSessionId);
      if oldSessionId != newSessionId {
        if newSessionId in db.baskets {
          return Failed(DuplicateSessionId);
        }
        db.baskets := (db.baskets - {oldSessionId})[newSessionId := basket];
      }
      r := Done;
    }
  }
}
