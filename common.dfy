/** Types shared by the order service: optional and failing results, money,
    Java's 32-bit `int`, the order lifecycle states and the errors the
    service throws. */
module Common {

  datatype Option<+T> = None | Some(value: T)

  /** A result or the exception the source throws instead. */
  datatype Result<+T, +E> = Ok(value: T) | Err(error: E)

  /** An exact amount of money, counted in minor units (cents). */
  type Money = int

  const CentsPerUnit: int := 100

  /** `new Money(units)`: a whole number of currency units. */
  function MoneyOfUnits(units: int): (m: Money)
    ensures m == units * CentsPerUnit
  {
    units * CentsPerUnit
  }

  const IntMin: int := -0x8000_0000
  const IntMax: int := 0x7fff_ffff
  const TwoTo32: int := 0x1_0000_0000

  predicate InInt32(x: int) {
    IntMin <= x <= IntMax
  }

  /** A value of Java's `int`. */
  type Int32 = x: int | InInt32(x)

  /** Java's `int` arithmetic: the mathematical result reduced into 32 bits. */
  function Wrap32(x: int): (r: Int32)
    ensures InInt32(x) ==> r == x
    ensures (x - r) % TwoTo32 == 0
  {
    (x - IntMin) % TwoTo32 + IntMin
  }

  /** The lifecycle states of an order. */
  datatype OrderState =
    | APPROVAL_PENDING
    | APPROVED
    | REJECTED
    | REVISION_PENDING
    | CANCEL_PENDING
    | CANCELLED

  /** The exceptions the order service and the order aggregate throw. */
  datatype Error =
    | UnsupportedStateTransition(state: OrderState)
    | OrderMinimumNotMet
    | RestaurantNotFound(restaurantId: int)
    | InvalidMenuItemId(menuItemId: string)
    | OrderNotFound(orderId: int)
    | UnsupportedOperation
    | RestaurantMissing(restaurantId: int)
}
