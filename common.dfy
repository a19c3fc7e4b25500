/** Small value types shared by the whole model. */
module Common {

  /** Java's `null` versus a present reference. */
  datatype Option<+T> = None | Some(value: T)

  /** The unchecked exceptions the services raise, plus the storage error that the
      unique `session_id` column produces when a basket is renamed onto a taken id. */
  datatype ShopError =
    | WineNotFound
    | BasketNotFound
    | BasketItemNotFound
    | NotEnoughStock
    | DuplicateSessionId

  /** The value of a call that either returns normally or throws one of the errors. */
  datatype Result<+T> = Ok(value: T) | Err(error: ShopError)

  /** The outcome of a `void` service call. */
  datatype Outcome = Done | Failed(error: ShopError)

  const INT_MIN: int := -0x8000_0000
  const INT_MAX: int := 0x7FFF_FFFF

  predicate IsInt32(x: int) { INT_MIN <= x <= INT_MAX }

  /** Java `int` arithmetic: the exact value reduced into the two's-complement range. */
  function Wrap32(x: int): (r: int)
    ensures IsInt32(r)
    ensures (r - x) % 0x1_0000_0000 == 0
    ensures IsInt32(x) ==> r == x
  {
    (x - INT_MIN) % 0x1_0000_0000 + INT_MIN
  }
}
