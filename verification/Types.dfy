/** Scalar types and the order record shared by every component. */
module Types {

  datatype Option<+T> = None | Some(value: T)

  /** Quantities are 64-bit unsigned integers: sums wrap around at TWO_64. */
  const TWO_64: int := 0x1_0000_0000_0000_0000

  type Quantity = q: int | 0 <= q < TWO_64
  type Price = int
  type OrderId = nat
  type Symbol = string

  function WrapAdd(a: int, b: int): Quantity { (a + b) % TWO_64 }

  function WrapSub(a: int, b: int): Quantity { (a - b) % TWO_64 }

  /** The remainder modulo 2^64 is the only one with a quotient. */
  lemma Residue(x: int, q: int, r: int)
    requires x == q * TWO_64 + r && 0 <= r < TWO_64
    ensures x % TWO_64 == r
  {
  }

  /** Reducing an operand first does not change a wrapped sum or difference. */
  lemma WrapTwice(a: int, b: int, c: int)
    ensures WrapAdd(a, WrapSub(b, c)) == WrapAdd(a, b - c)
    ensures WrapSub(a, WrapSub(b, c)) == WrapSub(a, b - c)
  {
    var q := (b - c) / TWO_64;
    Residue(a + WrapSub(b, c), (a + (b - c)) / TWO_64 - q, (a + (b - c)) % TWO_64);
    Residue(a - WrapSub(b, c), (a - (b - c)) / TWO_64 + q, (a - (b - c)) % TWO_64);
  }

  lemma WrapSum(a: int, b: int)
    ensures WrapAdd(a % TWO_64, b) == (a + b) % TWO_64
  {
    Residue(a % TWO_64 + b, (a + b) / TWO_64 - a / TWO_64, (a + b) % TWO_64);
  }

  function SaturatingSub(a: Quantity, b: Quantity): Quantity {
    if a >= b then a - b else 0
  }

  function Min(a: int, b: int): int { if a <= b then a else b }

  /** Lists of ids and of slots: no repetition, and the elements as a set. */
  ghost predicate AllDifferent(list: seq<nat>) {
    forall i, j :: 0 <= i < j < |list| ==> list[i] != list[j]
  }

  ghost function Elements(list: seq<nat>): set<nat> {
    set x | x in list
  }

  datatype Side = BUY | SELL

  function Opposite(side: Side): Side { if side == BUY then SELL else BUY }

  datatype OrderType = LIMIT | MARKET | CANCEL | IOC | FOK

  datatype OrderStatus = PENDING | ACCEPTED | PARTIALLY_FILLED | FILLED | CANCELLED | REJECTED

  /** The fields of an order at one moment. */
  datatype OrderState = OrderState(id: OrderId, symbol: Symbol, side: Side, kind: OrderType,
                                   price: Price, quantity: Quantity,
                                   filled: Quantity, status: OrderStatus)
  {
    function Rem(): int { quantity - filled }

    predicate IsFilled() { filled >= quantity }
  }

  datatype Trade = Trade(symbol: Symbol, price: Price, quantity: Quantity, maker: OrderId, taker: OrderId)
}
