/**
 * The first-generation sales manager (cbpos/mod/sales/controllers/manager.py).
 *
 * The manager holds the selected ticket and a currency override. Every
 * ticket operation first checks that a ticket is selected and otherwise
 * raises the "No ticket selected" error without touching anything. The
 * `update-taxes` signal it dispatches to the views is counted in
 * `notifications`.
 */
module PosManager {
  import opened Catalog
  import opened PosTicketLine
  import opened PosTicket

  /**
   * Row `l` after the currency setter has converted the lines of ticket `id`
   * from `from` to `to`. The new price goes through `update`, so an unedited
   * line linked to a product becomes edited when the converted price differs
   * from its old price.
   */
  function RepriceLine(l: Line, id: TicketId, from: Currency, to: Currency, convert: (Money, Currency, Currency) -> Money): (r: Line)
    ensures l.ticket != Some(id) ==> r == l
    ensures l.ticket == Some(id) ==> r.sellPrice == convert(l.sellPrice, from, to)
    ensures r.(sellPrice := l.sellPrice, isEdited := l.isEdited) == l
    ensures l.ticket == Some(id) ==>
      r.isEdited == (l.isEdited || (l.product.Some? && convert(l.sellPrice, from, to) != l.sellPrice))
  {
    if l.ticket == Some(id) then Update(l, SellPriceKwargs(convert(l.sellPrice, from, to))) else l
  }

  /** Every row after the currency setter's loop over the ticket's lines. */
  function Repriced(lines: seq<Line>, id: TicketId, from: Currency, to: Currency, convert: (Money, Currency, Currency) -> Money): (r: seq<Line>)
    ensures |r| == |lines|
    ensures forall k :: 0 <= k < |lines| ==> r[k] == RepriceLine(lines[k], id, from, to, convert)
  {
    seq(|lines|, k requires 0 <= k < |lines| => RepriceLine(lines[k], id, from, to, convert))
  }

  /** A ticket with no lines only changes its currency tag: no price anywhere is converted. */
  lemma RepriceEmptyTicket(lines: seq<Line>, id: TicketId, from: Currency, to: Currency, convert: (Money, Currency, Currency) -> Money)
    requires LinesOf(lines, id) == []
    ensures Repriced(lines, id, from, to, convert) == lines
  {
    LinesOfMembers(lines, id);
    forall k | 0 <= k < |lines|
      ensures RepriceLine(lines[k], id, from, to, convert) == lines[k]
    {
      assert lines[k] in lines;
      assert lines[k] !in LinesOf(lines, id);
    }
  }

  /** Setting the amount of row `j` moves its ticket's subtotal by the change in amount times the price. */
  lemma SubtotalAfterAmount(lines: seq<Line>, j: nat, amount: int, id: TicketId)
    requires j < |lines|
    ensures Sum(LinesOf(lines[j := lines[j].(amount := amount)], id), PosTicketLine.Subtotal) ==
            Sum(LinesOf(lines, id), PosTicketLine.Subtotal) +
            (if lines[j].ticket == Some(id) then (amount - lines[j].amount) as real * lines[j].sellPrice else 0.0)
  {
    SumAfterReplace(lines, j, lines[j].(amount := amount), id, PosTicketLine.Subtotal);
    if lines[j].ticket == Some(id) {
      AmountShare(lines[j], amount, id);
    }
  }

  /** `update(amount=n)` on row `j` rewrites only its amount, so the subtotal moves as `SubtotalAfterAmount` says. */
  lemma AmountUpdateSubtotal(lines: seq<Line>, j: nat, amount: int, id: TicketId)
    requires j < |lines|
    ensures lines[j := Update(lines[j], AmountKwargs(amount))] == lines[j := lines[j].(amount := amount)]
    ensures Sum(LinesOf(lines[j := Update(lines[j], AmountKwargs(amount))], id), PosTicketLine.Subtotal) ==
            Sum(LinesOf(lines, id), PosTicketLine.Subtotal) +
            AmountChange(lines[j], amount, id)
  {
    AmountUpdateKeepsFlag(lines[j], amount);
    SubtotalAfterAmount(lines, j, amount, id);
  }

  /**
   * What setting row `l`'s amount adds to the subtotal of ticket `id`: the
   * change in amount times the price on the ticket's own rows, 0 elsewhere.
   */
  function AmountChange(l: Line, amount: int, id: TicketId): (r: Money)
    ensures l.ticket != Some(id) || amount == l.amount || l.sellPrice == 0.0 ==> r == 0.0
  {
    if l.ticket == Some(id) then (amount - l.amount) as real * l.sellPrice else 0.0
  }

  /** The change in one row's share of its ticket's subtotal when its amount is set. */
  lemma AmountShare(l: Line, amount: int, id: TicketId)
    requires l.ticket == Some(id)
    ensures Share(l.(amount := amount), id, PosTicketLine.Subtotal) - Share(l, id, PosTicketLine.Subtotal) ==
            (amount - l.amount) as real * l.sellPrice
  {
  }

  class SalesManager {
    /** The selected ticket, or null. */
    var ticket: Ticket?
    /** The currency override (`__currency`), used when no ticket is selected. */
    var currencyOverride: Option<Currency>
    /** How many `update-taxes` signals have been sent. */
    var notifications: nat
    const db: Session
    const currencies: CurrencyService

    constructor (db: Session, currencies: CurrencyService)
      ensures this.db == db && this.currencies == currencies
      ensures ticket == null && currencyOverride == None && notifications == 0
    {
      this.db := db;
      this.currencies := currencies;
      ticket := null;
      currencyOverride := None;
      notifications := 0;
    }

    /** `update_taxes`: the "totals changed" signal. */
    method UpdateTaxes()
      modifies this`notifications
      ensures notifications == old(notifications) + 1
    {
      notifications := notifications + 1;
    }

    /** The `ticket` setter: selecting a ticket (or none) signals the views. */
    method SelectTicket(t: Ticket?)
      modifies this`ticket, this`notifications
      ensures ticket == t && notifications == old(notifications) + 1
    {
      ticket := t;
      UpdateTaxes();
    }

    /** `new_ticket`: a persisted ticket in the default currency with no discount; the selection stays. */
    method NewTicket() returns (t: Ticket)
      requires db.Valid()
      modifies this`notifications, db`tickets, db`nextTicketId
      ensures db.Valid()
      ensures fresh(t) && db.tickets == old(db.tickets) + {t}
      ensures LinesOf(db.lines, t.id) == [] && t.Subtotal(db) == 0.0 && t.Total(db) == 0.0
      ensures t.discount == 0.0 && t.currency == currencies.default && t.customer == None
      ensures !t.Paid() && !t.Closed()
      ensures ticket == old(ticket) && notifications == old(notifications) + 1
    {
      t := db.NewTicket(currencies.default);
      UpdateTaxes();
    }

    /** `cancel_ticket`: deletes the selected ticket with its lines, then clears the selection. */
    method CancelTicket() returns (err: Option<Error>)
      requires db.Valid()
      modifies this`ticket, this`notifications, db`tickets, db`lines
      ensures db.Valid()
      ensures old(ticket) == null ==> err == Some(TicketSelection) && unchanged(this, db)
      ensures old(ticket) != null ==>
        && err == None && ticket == null
        && db.tickets == old(db.tickets) - {old(ticket)}
        && db.lines == WithoutTicket(old(db.lines), old(ticket).id)
        && notifications == old(notifications) + 1
    {
      if ticket == null {
        return Some(TicketSelection);
      }
      db.DeleteTicket(ticket);
      SelectTicket(null);
      err := None;
    }

    /** `close_ticket`: records the payment, then marks the ticket closed, which takes the stock. */
    method CloseTicket(payment: string, paid: bool, now: nat) returns (err: Option<Error>)
      requires db.Valid()
      modifies ticket, db`products
      ensures db.Valid()
      ensures old(ticket) == null ==> err == Some(TicketSelection) && unchanged(db)
      ensures ticket == old(ticket)
      ensures ticket != null ==>
        && err == None
        && ticket.paymentMethod == Some(payment) && ticket.Paid() == paid && ticket.Closed()
        && ticket.Columns() == old(ticket.Columns()).(paymentMethod := Some(payment),
             datePaid := if paid then Some(now) else None, dateClose := Some(now))
        && db.products == Decremented(old(db.products), db.lines, ticket.id)
    {
      if ticket == null {
        return Some(TicketSelection);
      }
      ticket.Pay(payment, paid, now);
      ticket.SetClosed(true, now, db);
      err := None;
    }

    /** `list_tickets`: the tickets that are not closed. */
    function ListTickets(): (r: set<Ticket>)
      reads db, db.tickets
      ensures r <= db.tickets
      ensures forall t :: t in db.tickets ==> (t in r <==> !t.Closed())
    {
      set t | t in db.tickets && !t.Closed()
    }

    /** `subtotal`: the selected ticket's subtotal, or 0, formatted in the current currency. */
    function Subtotal(): (r: Display)
      reads this, ticket, db
      ensures r.currency == Currency()
      ensures r.value == if ticket == null then 0.0 else ticket.Subtotal(db)
    {
      Display(Currency(), if ticket == null then 0.0 else ticket.Subtotal(db))
    }

    /** `taxes`: the selected ticket's taxes, or 0, formatted in the current currency. */
    function Taxes(): (r: Display)
      reads this, ticket, db
      ensures r.currency == Currency()
      ensures r.value == if ticket == null then 0.0 else ticket.Taxes(db)
    {
      Display(Currency(), if ticket == null then 0.0 else ticket.Taxes(db))
    }

    /** `total`: the selected ticket's total, or 0, formatted in the current currency. */
    function Total(): (r: Display)
      reads this, ticket, db
      ensures r.currency == Currency()
      ensures r.value == if ticket == null then 0.0 else ticket.Total(db)
    {
      Display(Currency(), if ticket == null then 0.0 else ticket.Total(db))
    }

    /**
     * `add_ticketline(data)`: a fresh line updated with `data`. Its ticket is
     * whatever `data` names, not the selected one; through that ticket's
     * relationship the line joins the session. A line naming no ticket stays
     * transient: it is returned but never becomes a row.
     */
    method AddTicketline(data: Kwargs) returns (r: Result<Line>)
      requires db.Valid() && db.KeyedKwargs(data)
      modifies this`notifications, db`lines
      ensures db.Valid()
      ensures ticket == null ==> r == Err(TicketSelection) && db.lines == old(db.lines) && notifications == old(notifications)
      ensures ticket != null ==>
        && r == Ok(Update(NewLine(), data))
        && db.lines == old(db.lines) + (if r.value.ticket.Some? then [r.value] else [])
        && notifications == old(notifications) + 1
    {
      if ticket == null {
        return Err(TicketSelection);
      }
      var tl := Update(NewLine(), data);
      if tl.ticket.Some? {
        var _ := db.AddLine(data);
      }
      UpdateTaxes();
      r := Ok(tl);
    }

    /** `edit_ticketline(tl, data)`: `tl.update(**data)`. */
    method EditTicketline(i: nat, data: Kwargs) returns (err: Option<Error>)
      requires db.Valid() && db.KeyedKwargs(data) && data.ticket != Some(None)
      requires i < |db.lines|
      modifies this`notifications, db`lines
      ensures db.Valid()
      ensures ticket == null ==> err == Some(TicketSelection) && db.lines == old(db.lines) && notifications == old(notifications)
      ensures ticket != null ==>
        && err == None
        && db.lines == old(db.lines)[i := Update(old(db.lines)[i], data)]
        && notifications == old(notifications) + 1
    {
      if ticket == null {
        return Some(TicketSelection);
      }
      db.UpdateLine(i, data);
      UpdateTaxes();
      err := None;
    }

    /** `remove_ticketline(tl)`: deletes the line. */
    method RemoveTicketline(i: nat) returns (err: Option<Error>)
      requires db.Valid() && i < |db.lines|
      modifies this`notifications, db`lines
      ensures db.Valid()
      ensures ticket == null ==> err == Some(TicketSelection) && db.lines == old(db.lines) && notifications == old(notifications)
      ensures ticket != null ==>
        && err == None
        && db.lines == old(db.lines)[..i] + old(db.lines)[i + 1..]
        && notifications == old(notifications) + 1
    {
      if ticket == null {
        return Some(TicketSelection);
      }
      db.DeleteLine(i);
      UpdateTaxes();
      err := None;
    }

    /** The stock check of `set_ticketline_amount`: the linked product tracks stock and has fewer than `amount`. */
    predicate ShortOfStock(l: Line, amount: int)
      reads db
    {
      var p := db.ProductOf(l);
      p.Some? && p.value.inStock && p.value.quantity < amount
    }

    /**
     * `set_ticketline_amount(tl, amount, force)`. A positive amount is stored
     * unless the stock check fails and `force` is off; a non-positive amount
     * deletes the line. The stock itself is only read.
     */
    method SetTicketlineAmount(i: nat, amount: int, force: bool) returns (err: Option<Error>)
      requires db.Valid() && i < |db.lines|
      modifies this`notifications, db`lines
      ensures db.Valid()
      ensures ticket == null ==> err == Some(TicketSelection)
      ensures ticket != null && amount > 0 && !force && ShortOfStock(old(db.lines)[i], amount) ==>
        err == Some(InsufficientStock)
      ensures err.Some? ==> db.lines == old(db.lines) && notifications == old(notifications)
      ensures ticket != null && amount > 0 && (force || !ShortOfStock(old(db.lines)[i], amount)) ==>
        && err == None
        && db.lines == old(db.lines)[i := old(db.lines)[i].(amount := amount)]
        && ticket.Subtotal(db) == old(ticket.Subtotal(db)) + AmountChange(old(db.lines)[i], amount, ticket.id)
      ensures ticket != null && amount <= 0 ==>
        && err == None
        && db.lines == old(db.lines)[..i] + old(db.lines)[i + 1..]
        && |db.lines| == |old(db.lines)| - 1
        && ticket.Subtotal(db) == old(ticket.Subtotal(db)) - Share(old(db.lines)[i], ticket.id, PosTicketLine.Subtotal)
      ensures err.None? ==> notifications == old(notifications) + 1
    {
      if ticket == null {
        return Some(TicketSelection);
      }
      var l := db.lines[i];
      if amount > 0 {
        if !force && ShortOfStock(l, amount) {
          return Some(InsufficientStock);
        }
        AmountUpdateSubtotal(db.lines, i, amount, ticket.id);
        db.UpdateLine(i, AmountKwargs(amount));
      } else {
        SumAfterDelete(db.lines, i, ticket.id, PosTicketLine.Subtotal);
        db.DeleteLine(i);
      }
      UpdateTaxes();
      err := None;
    }

    /** `add_product(p)`: `addLineFromProduct` on the selected ticket, a persisted one. */
    method AddProduct(p: ProductId) returns (err: Option<Error>)
      requires db.Valid() && p in db.products && (ticket != null ==> ticket in db.tickets)
      modifies this`notifications, db`lines
      ensures db.Valid()
      ensures ticket == null ==> err == Some(TicketSelection) && db.lines == old(db.lines) && notifications == old(notifications)
      ensures ticket != null ==> err == None && notifications == old(notifications) + 1
      ensures ticket != null && FindUnedited(old(db.lines), p).Some? ==>
        db.lines == Bumped(old(db.lines), FindUnedited(old(db.lines), p).value)
      ensures ticket != null && FindUnedited(old(db.lines), p).None? ==>
        db.lines == old(db.lines) + [LineFromProduct(db.products[p], p, ticket.id,
                                       currencies.convert(db.products[p].price, db.products[p].currency, ticket.currency))]
    {
      if ticket == null {
        return Some(TicketSelection);
      }
      ticket.AddLineFromProduct(p, db, currencies);
      UpdateTaxes();
      err := None;
    }

    /** The `currency` getter: the selected ticket's currency, else the override, else the default. */
    function Currency(): (r: Catalog.Currency)
      reads this, ticket
      ensures ticket != null ==> r == ticket.currency
      ensures ticket == null && currencyOverride.Some? ==> r == currencyOverride.value
      ensures ticket == null && currencyOverride.None? ==> r == currencies.default
    {
      if ticket != null then ticket.currency
      else if currencyOverride.Some? then currencyOverride.value
      else currencies.default
    }

    /**
     * The `currency` setter. None stores the default as the override and does
     * nothing else. A currency is stored as the override and, with a ticket
     * selected, every line of the ticket is converted from the ticket's old
     * currency to the new one before the ticket is re-tagged.
     */
    method SetCurrency(c: Option<Catalog.Currency>)
      requires db.Valid()
      modifies this`currencyOverride, this`notifications, db`lines, ticket
      ensures db.Valid()
      ensures c.None? ==> currencyOverride == Some(currencies.default)
      ensures c.Some? ==> currencyOverride == c
      ensures c.None? || ticket == null ==>
        db.lines == old(db.lines) && notifications == old(notifications) && (ticket != null ==> unchanged(ticket))
      ensures c.Some? && ticket != null ==>
        && db.lines == Repriced(old(db.lines), ticket.id, old(ticket.currency), c.value, currencies.convert)
        && ticket.currency == c.value
        && ticket.Columns() == old(ticket.Columns()).(currency := c.value)
        && notifications == old(notifications) + 1
      ensures c.Some? ==> Currency() == c.value
    {
      if c.None? {
        currencyOverride := Some(currencies.default);
        return;
      }
      currencyOverride := c;
      if ticket != null {
        var from := Currency();
        var n := |db.lines|;
        var i := 0;
        while i < n
          invariant 0 <= i <= n == |db.lines|
          invariant ticket.currency == from == old(ticket.currency) && currencyOverride == c
          invariant forall k :: 0 <= k < i ==> db.lines[k] == RepriceLine(old(db.lines)[k], ticket.id, from, c.value, currencies.convert)
          invariant forall k :: i <= k < n ==> db.lines[k] == old(db.lines)[k]
          invariant notifications == old(notifications) && unchanged(ticket)
          invariant db.Valid()
        {
          if db.lines[i].ticket == Some(ticket.id) {
            db.UpdateLine(i, SellPriceKwargs(currencies.convert(db.lines[i].sellPrice, from, c.value)));
          }
          i := i + 1;
        }
        ticket.currency := c.value;
        UpdateTaxes();
      }
    }

    /** `is_discount_allowed` always answers yes. */
    predicate IsDiscountAllowed()
    {
      true
    }

    /** The `discount` getter: the ticket's fraction scaled to percent, or 0. */
    function Discount(): (r: real)
      reads this, ticket
      ensures ticket == null ==> r == 0.0
      ensures ticket != null ==> r / 100.0 == ticket.discount
    {
      if ticket == null then 0.0 else ticket.discount * 100.0
    }

    /** The `discount` setter takes percent and stores the fraction; the getter gives the value back. */
    method SetDiscount(value: real) returns (err: Option<Error>)
      modifies ticket
      ensures old(ticket) == null ==> err == Some(TicketSelection)
      ensures ticket != null ==> err == None && Discount() == value
      ensures ticket != null ==> ticket.Columns() == old(ticket.Columns()).(discount := value / 100.0)
    {
      if ticket == null {
        return Some(TicketSelection);
      }
      ticket.discount := value / 100.0;
      err := None;
    }

    /** The `customer` getter. */
    function Customer(): (r: Option<Catalog.Customer>)
      reads this, ticket
      ensures ticket == null ==> r == None
      ensures ticket != null ==> r == ticket.customer
    {
      if ticket == null then None else ticket.customer
    }

    /** The `customer` setter: a customer brings its discount; clearing the customer clears the discount. */
    method SetCustomer(c: Option<Catalog.Customer>) returns (err: Option<Error>)
      modifies ticket
      ensures old(ticket) == null ==> err == Some(TicketSelection)
      ensures ticket != null ==> err == None && Customer() == c
      ensures ticket != null ==> ticket.discount == if c.Some? then c.value.discount else 0.0
      ensures ticket != null ==>
        ticket.Columns() == old(ticket.Columns()).(customer := c, discount := if c.Some? then c.value.discount else 0.0)
    {
      if ticket == null {
        return Some(TicketSelection);
      }
      if c.Some? {
        ticket.customer := c;
        ticket.discount := c.value.discount;
      } else {
        ticket.customer := None;
        ticket.discount := 0.0;
      }
      err := None;
    }
  }
}
