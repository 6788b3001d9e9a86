/**
 * The first-generation ticket line (cbpos/mod/sales/models/ticketline.py).
 *
 * A line is a persisted row. Its `update(**kwargs)` first rewrites the
 * keyword arguments (injecting `is_edited` when the line is still linked to
 * an unedited product) and then assigns every passed key. The total here
 * carries no tax term.
 */
module PosTicketLine {
  import opened Catalog

  datatype Line = Line(
    description: string,
    sellPrice: Money,
    amount: int,
    discount: int,
    taxes: Money,
    isEdited: bool,
    ticket: Option<TicketId>,
    product: Option<ProductId>)

  /** A freshly constructed `TicketLine()`, carrying the column defaults. */
  function NewLine(): (r: Line)
    ensures r.amount == 1 && r.discount == 0 && r.sellPrice == 0.0 && r.taxes == 0.0
    ensures !r.isEdited && r.product == None && r.ticket == None && r.description == ""
  {
    Line("", 0.0, 1, 0, 0.0, false, None, None)
  }

  /**
   * The keyword arguments of `update`: `None` means the key was not passed.
   * For `product` and `ticket`, `Some(None)` passes an explicit None.
   */
  datatype Kwargs = Kwargs(
    description: Option<string>,
    sellPrice: Option<Money>,
    amount: Option<int>,
    discount: Option<int>,
    taxes: Option<Money>,
    isEdited: Option<bool>,
    ticket: Option<Option<TicketId>>,
    product: Option<Option<ProductId>>)

  const NoKwargs := Kwargs(None, None, None, None, None, None, None, None)

  /** `update(amount=n)` */
  function AmountKwargs(n: int): Kwargs { NoKwargs.(amount := Some(n)) }

  /** `update(sell_price=v)` */
  function SellPriceKwargs(v: Money): Kwargs { NoKwargs.(sellPrice := Some(v)) }

  /**
   * The rewrite `update` applies to its keyword arguments before assigning
   * them. The edit check looks at the product linked BEFORE the update, even
   * when the same call assigns another product.
   */
  function Inject(l: Line, kw: Kwargs): (r: Kwargs)
    ensures r.(isEdited := kw.isEdited) == kw
    ensures !l.isEdited && l.product.Some? ==>
      r.isEdited == Some((kw.description.Some? && kw.description.value != l.description) ||
                         (kw.sellPrice.Some? && kw.sellPrice.value != l.sellPrice))
    ensures l.isEdited || l.product.None? ==> r == kw
  {
    if !l.isEdited && l.product.Some? then
      var descriptionEdited := kw.description.Some? && l.description != kw.description.value;
      var priceEdited := kw.sellPrice.Some? && l.sellPrice != kw.sellPrice.value;
      kw.(isEdited := Some(descriptionEdited || priceEdited))
    else
      kw
  }

  /** Assigns every passed key (`common.Item.update`); keys not passed keep their value. */
  function Assign(l: Line, kw: Kwargs): (r: Line)
    ensures kw == NoKwargs ==> r == l
    ensures r.description == kw.description.GetOr(l.description)
    ensures r.sellPrice == kw.sellPrice.GetOr(l.sellPrice)
    ensures r.amount == kw.amount.GetOr(l.amount)
    ensures r.discount == kw.discount.GetOr(l.discount)
    ensures r.taxes == kw.taxes.GetOr(l.taxes)
    ensures r.isEdited == kw.isEdited.GetOr(l.isEdited)
    ensures r.ticket == kw.ticket.GetOr(l.ticket)
    ensures r.product == kw.product.GetOr(l.product)
  {
    Line(kw.description.GetOr(l.description),
         kw.sellPrice.GetOr(l.sellPrice),
         kw.amount.GetOr(l.amount),
         kw.discount.GetOr(l.discount),
         kw.taxes.GetOr(l.taxes),
         kw.isEdited.GetOr(l.isEdited),
         kw.ticket.GetOr(l.ticket),
         kw.product.GetOr(l.product))
  }

  /** `TicketLine.update(**kw)`: the edit detection override, then the assignment. */
  function Update(l: Line, kw: Kwargs): (r: Line)
    // On an unedited, linked line the flag becomes exactly "description or price changed",
    // whatever `is_edited` the caller passed.
    ensures !l.isEdited && l.product.Some? ==>
      r.isEdited == ((kw.description.Some? && kw.description.value != l.description) ||
                     (kw.sellPrice.Some? && kw.sellPrice.value != l.sellPrice))
    // Otherwise the arguments pass through, an explicit `is_edited=False` included.
    ensures l.isEdited || l.product.None? ==> r.isEdited == kw.isEdited.GetOr(l.isEdited)
    // Every other column is the passed value or the old one.
    ensures r.description == kw.description.GetOr(l.description)
    ensures r.sellPrice == kw.sellPrice.GetOr(l.sellPrice)
    ensures r.amount == kw.amount.GetOr(l.amount)
    ensures r.discount == kw.discount.GetOr(l.discount)
    ensures r.taxes == kw.taxes.GetOr(l.taxes)
    ensures r.ticket == kw.ticket.GetOr(l.ticket)
    ensures r.product == kw.product.GetOr(l.product)
  {
    Assign(l, Inject(l, kw))
  }

  /** The line's total: amount times price, less the line discount (in percent); no tax term. */
  function Total(l: Line): (r: Money)
    ensures l.discount == 0 ==> r == Subtotal(l)
    ensures l.discount == 100 ==> r == 0.0
    ensures 0 <= l.discount <= 100 && l.amount >= 0 && l.sellPrice >= 0.0 ==> 0.0 <= r <= Subtotal(l)
  {
    Discounted(Subtotal(l), l.discount)
  }

  /** The line's net amount: amount times price, before discount and taxes. */
  function Subtotal(l: Line): (r: Money)
    ensures l.amount == 0 || l.sellPrice == 0.0 ==> r == 0.0
    ensures l.amount >= 0 && l.sellPrice >= 0.0 ==> r >= 0.0
  {
    (l.amount as real) * l.sellPrice
  }

  /** The net amount takes no part of the line discount: a discount changes the total, never the subtotal. */
  lemma SubtotalExcludesDiscount(l: Line, d: int)
    ensures Subtotal(l.(discount := d)) == Subtotal(l)
    ensures Total(l.(discount := d)) == Discounted(Subtotal(l), d)
  {
  }

  /**
   * The instance getter `tl.subtotal` as the class declares it. The second
   * `subtotal` is decorated with `@total.expression` rather than
   * `@subtotal.expression`, so the name is bound to the `total` hybrid and
   * reading it on a line runs the total's getter, discount included.
   */
  function SubtotalGetterAsWritten(l: Line): (r: Money)
    ensures l.discount == 0 ==> r == Subtotal(l)
    ensures l.discount == 100 ==> r == 0.0
  {
    Total(l)
  }

  /**
   * The SQL expression of `TicketLine.total` as SQLAlchemy before 1.2 leaves
   * it: `expression` there rewrites the hybrid in place, so the decorator of
   * the second `subtotal` replaces the total's expression with the
   * undiscounted one. Sums over lines (the ticket's total) then ignore line
   * discounts.
   */
  function TotalExpressionAsWritten(l: Line): (r: Money)
    ensures l.discount == 0 ==> r == Total(l)
    ensures r == Subtotal(l.(discount := 0))
  {
    Subtotal(l)
  }

  /**
   * One unit at 10.0 with a 10 percent line discount: the net amount is 10.0
   * and the discounted total 9.0, but the `subtotal` getter answers 9.0 and
   * the overwritten total expression 10.0.
   */
  lemma SubtotalDecoratorDiscrepancy()
    ensures Subtotal(Line("", 10.0, 1, 10, 0.0, false, None, None)) == 10.0
    ensures Total(Line("", 10.0, 1, 10, 0.0, false, None, None)) == 9.0
    ensures SubtotalGetterAsWritten(Line("", 10.0, 1, 10, 0.0, false, None, None)) == 9.0
    ensures TotalExpressionAsWritten(Line("", 10.0, 1, 10, 0.0, false, None, None)) == 10.0
  {
  }

  /** An amount-only update, as `addLineFromProduct` and the amount setter issue, never marks a line edited. */
  lemma AmountUpdateKeepsFlag(l: Line, n: int)
    ensures Update(l, AmountKwargs(n)) == l.(amount := n)
  {
  }

  /**
   * The flag is not monotone here: a line that is already edited passes an
   * explicit `is_edited=False` through and becomes unedited again.
   */
  lemma EditedLineCanBeReset(l: Line)
    requires l.isEdited
    ensures !Update(l, NoKwargs.(isEdited := Some(false))).isEdited
  {
  }
}
