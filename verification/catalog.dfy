/**
 * Collaborators of the sales module that live in other modules of the
 * point-of-sale application: products of the stock catalog, customers,
 * currencies and the currency service. Only what the sales core reads or
 * calls is kept, and every foreign operation becomes a value the caller
 * supplies.
 */
module Catalog {

  datatype Option<+T> = None | Some(value: T) {
    function GetOr(default: T): T {
      match this
      case Some(v) => v
      case None => default
    }
  }

  /** Money is a real number of currency units; the source's float columns and rounding are not modelled. */
  type Money = real

  /** Primary keys of the persisted rows. */
  type ProductId = nat
  type TicketId = nat

  /** A currency is opaque to the sales core and only compared for equality. */
  datatype Currency = Currency(code: string)

  /**
   * A catalog product: `price` is given in `currency`; `sellPrice` is the
   * product's canonical selling price that line edits are compared against;
   * `quantity` is the stock level, tracked only when `inStock` holds.
   */
  datatype Product = Product(
    name: string,
    price: Money,
    sellPrice: Money,
    currency: Currency,
    inStock: bool,
    quantity: int)

  /** A customer carries the discount that selecting it applies to a ticket. */
  datatype Customer = Customer(id: nat, discount: real)

  /**
   * The currency controller: the process-wide default currency and the
   * conversion function, both foreign to the sales core.
   */
  datatype CurrencyService = CurrencyService(default: Currency, convert: (Money, Currency, Currency) -> Money)

  /** What `currency.format(value)` produces: a value displayed in a currency. */
  datatype Display = Display(currency: Currency, value: Money)

  /** The two failures the sales manager raises. */
  datatype Error =
    | TicketSelection   // "No ticket selected"
    | InsufficientStock // "Amount in stock is smaller than set amount"

  /** A value, or the error an operation raised instead. */
  datatype Result<T> = Ok(value: T) | Err(error: Error)

  /** Stock left after `Product.quantity_out(amount)`. */
  function QuantityOut(p: Product, amount: int): (r: Product)
    ensures r.quantity + amount == p.quantity
    ensures r.(quantity := p.quantity) == p
  {
    p.(quantity := p.quantity - amount)
  }

  /**
   * `v * (100 - d) / 100`: `v` less a discount of `d` percent. No discount
   * keeps `v`, a full discount gives 0, and a discount in [0, 100] keeps a
   * non-negative value between 0 and itself.
   */
  function Discounted(v: real, d: int): (r: real)
    ensures d == 0 ==> r == v
    ensures d == 100 ==> r == 0.0
    ensures 0 <= d <= 100 && v >= 0.0 ==> 0.0 <= r <= v
  {
    DiscountBounds(v, d);
    v * ((100 - d) as real) / 100.0
  }

  lemma DiscountBounds(v: real, d: int)
    ensures 0 <= d <= 100 && v >= 0.0 ==> 0.0 <= v * ((100 - d) as real) / 100.0 <= v
  {
    if 0 <= d <= 100 && v >= 0.0 {
      var k := (100 - d) as real;
      assert 0.0 <= k <= 100.0;
      MulMonotone(v, k, 100.0);
      MulMonotone(v, 0.0, k);
    }
  }

  lemma MulMonotone(v: real, a: real, b: real)
    requires v >= 0.0 && a <= b
    ensures v * a <= v * b
  {
    assert v * b - v * a == v * (b - a);
  }
}
