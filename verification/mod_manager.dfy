/**
 * The second-generation sales manager (cbmod/sales/controllers/manager.py).
 *
 * Against the first generation: the numeric aggregates are returned
 * unformatted, the currency override wins over the ticket's currency and the
 * currency setter no longer converts anything, the discount is stored as
 * given (percent) and a currency display helper and the list of payment
 * methods appear.
 *
 * The Ticket model of this generation is not part of this model. `Ticket`
 * below carries only what the manager reads and writes; its lines are
 * `ModTicketLine.TicketLine` objects.
 */
module ModManager {
  import opened Catalog
  import opened ModTicketLine

  /** The sum of the line subtotals. */
  function SumSubtotal(ls: seq<TicketLine>): Money
    reads ls
  {
    if ls == [] then 0.0 else SumSubtotal(ls[..|ls| - 1]) + ls[|ls| - 1].Subtotal()
  }

  /** The sum of the line taxes. */
  function SumTaxes(ls: seq<TicketLine>): Money
    reads ls
  {
    if ls == [] then 0.0 else SumTaxes(ls[..|ls| - 1]) + ls[|ls| - 1].taxes
  }

  /** The sum of the line totals (each already holding its taxes and line discount). */
  function SumTotal(ls: seq<TicketLine>): Money
    reads ls
  {
    if ls == [] then 0.0 else SumTotal(ls[..|ls| - 1]) + ls[|ls| - 1].Total()
  }

  /** The lines left after `tl.delete()`: every other line, in order. */
  function Without(ls: seq<TicketLine>, tl: TicketLine): (r: seq<TicketLine>)
    ensures |r| <= |ls|
  {
    if ls == [] then []
    else
      var last := ls[|ls| - 1];
      Without(ls[..|ls| - 1], tl) + (if last == tl then [] else [last])
  }

  /** `Without` drops the deleted line and keeps every other one. */
  lemma {:induction false} WithoutMembers(ls: seq<TicketLine>, tl: TicketLine)
    ensures tl !in Without(ls, tl)
    ensures forall l :: l in ls && l != tl ==> l in Without(ls, tl)
    ensures forall l :: l in Without(ls, tl) ==> l in ls
  {
    if ls != [] {
      var init := ls[..|ls| - 1];
      WithoutMembers(init, tl);
      assert ls == init + [ls[|ls| - 1]];
    }
  }

  /** Appending one line adds its subtotal. */
  lemma SumSubtotalAppend(ls: seq<TicketLine>, l: TicketLine)
    ensures SumSubtotal(ls + [l]) == SumSubtotal(ls) + l.Subtotal()
  {
    assert (ls + [l])[..|ls + [l]| - 1] == ls;
  }

  /** Deleting a line that occurs once removes exactly one line and exactly its subtotal. */
  lemma {:induction false} WithoutOnce(ls: seq<TicketLine>, tl: TicketLine)
    requires multiset(ls)[tl] == 1
    ensures |Without(ls, tl)| == |ls| - 1
    ensures SumSubtotal(Without(ls, tl)) == SumSubtotal(ls) - tl.Subtotal()
  {
    var init, last := ls[..|ls| - 1], ls[|ls| - 1];
    assert ls == init + [last];
    assert multiset(ls) == multiset(init) + multiset{last};
    assert Without(ls, tl) == Without(init, tl) + (if last == tl then [] else [last]);
    SumSubtotalAppend(init, last);
    var x := tl.Subtotal();
    if last == tl {
      assert tl !in multiset(init);
      WithoutAbsent(init, tl);
      assert Without(ls, tl) == init;
      assert SumSubtotal(ls) == SumSubtotal(init) + x;
    } else {
      var w := Without(init, tl);
      WithoutOnce(init, tl);
      assert SumSubtotal(w) == SumSubtotal(init) - x;
      assert Without(ls, tl) == w + [last];
      SumSubtotalAppend(w, last);
    }
  }

  /** Deleting a line that does not occur changes nothing. */
  lemma {:induction false} WithoutAbsent(ls: seq<TicketLine>, tl: TicketLine)
    requires tl !in ls
    ensures Without(ls, tl) == ls
  {
    if ls != [] {
      WithoutAbsent(ls[..|ls| - 1], tl);
      assert ls == ls[..|ls| - 1] + [ls[|ls| - 1]];
    }
  }

  /** A ticket's own columns other than its lines, as a value. */
  datatype TicketColumns = TicketColumns(
    discount: real,
    currency: Currency,
    customer: Option<Customer>,
    paymentMethod: Option<string>,
    datePaid: Option<nat>,
    dateClose: Option<nat>)

  /** The ticket columns the manager uses; `discount` is in percent. */
  class Ticket {
    var lines: seq<TicketLine>
    var discount: real
    var currency: Currency
    var customer: Option<Customer>
    var paymentMethod: Option<string>
    var datePaid: Option<nat>
    var dateClose: Option<nat>

    constructor (c: Currency)
      ensures lines == [] && discount == 0.0 && currency == c && customer == None
      ensures paymentMethod == None && datePaid == None && dateClose == None
    {
      lines := [];
      discount := 0.0;
      currency := c;
      customer := None;
      paymentMethod := None;
      datePaid := None;
      dateClose := None;
    }

    function Columns(): TicketColumns
      reads this
    {
      TicketColumns(discount, currency, customer, paymentMethod, datePaid, dateClose)
    }

    /** `closed` holds exactly when the close stamp is set. */
    predicate Closed()
      reads this
    {
      dateClose.Some?
    }

    function Subtotal(): (r: Money)
      reads this, lines
      ensures lines == [] ==> r == 0.0
    {
      SumSubtotal(lines)
    }

    function Taxes(): (r: Money)
      reads this, lines
      ensures lines == [] ==> r == 0.0
    {
      SumTaxes(lines)
    }

    function Total(): (r: Money)
      reads this, lines
      ensures lines == [] ==> r == 0.0
    {
      SumTotal(lines)
    }
  }

  /** The persisted tickets. */
  class Store {
    var tickets: set<Ticket>

    constructor ()
      ensures tickets == {}
    {
      tickets := {};
    }
  }

  /** `payment_methods`: the payment options offered at close. */
  function PaymentMethods(): (r: seq<string>)
    ensures |r| == 6
    ensures (set m | m in r) == {"cash", "cheque", "card", "voucher", "free", "debt"}
  {
    ["cash", "cheque", "card", "voucher", "free", "debt"]
  }

  class SalesManager {
    var ticket: Ticket?
    var currencyOverride: Option<Currency>
    var notifications: nat
    const store: Store
    const currencies: CurrencyService

    constructor (store: Store, currencies: CurrencyService)
      ensures this.store == store && this.currencies == currencies
      ensures ticket == null && currencyOverride == None && notifications == 0
    {
      this.store := store;
      this.currencies := currencies;
      ticket := null;
      currencyOverride := None;
      notifications := 0;
    }

    /** `update_taxes`: the "totals changed" signal. */
    method UpdateTaxes()
      modifies this`notifications
      ensures notifications == old(notifications) + 1
    {
      notifications := notifications + 1;
    }

    /** The `ticket` setter. */
    method SelectTicket(t: Ticket?)
      modifies this`ticket, this`notifications
      ensures ticket == t && notifications == old(notifications) + 1
    {
      ticket := t;
      UpdateTaxes();
    }

    /** `new_ticket`: a persisted ticket in the default currency with no discount; the selection stays. */
    method NewTicket() returns (t: Ticket)
      modifies this`notifications, store
      ensures fresh(t) && store.tickets == old(store.tickets) + {t}
      ensures t.lines == [] && t.discount == 0.0 && t.currency == currencies.default && !t.Closed()
      ensures ticket == old(ticket) && notifications == old(notifications) + 1
    {
      t := new Ticket(currencies.default);
      store.tickets := store.tickets + {t};
      UpdateTaxes();
    }

    /** `cancel_ticket`: deletes the selected ticket, then clears the selection. */
    method CancelTicket() returns (err: Option<Error>)
      modifies this`ticket, this`notifications, store
      ensures old(ticket) == null ==> err == Some(TicketSelection) && unchanged(this, store)
      ensures old(ticket) != null ==>
        err == None && ticket == null && store.tickets == old(store.tickets) - {old(ticket)}
        && notifications == old(notifications) + 1
    {
      if ticket == null {
        return Some(TicketSelection);
      }
      store.tickets := store.tickets - {ticket};
      SelectTicket(null);
      err := None;
    }

    /** `close_ticket`: records the payment method and the paid flag, then marks the ticket closed. */
    method CloseTicket(payment: string, paid: bool, now: nat) returns (err: Option<Error>)
      modifies ticket
      ensures old(ticket) == null ==> err == Some(TicketSelection)
      ensures ticket != null ==>
        && err == None && ticket.lines == old(ticket.lines)
        && ticket.Columns() == old(ticket.Columns()).(paymentMethod := Some(payment),
             datePaid := if paid then Some(now) else None, dateClose := Some(now))
    {
      if ticket == null {
        return Some(TicketSelection);
      }
      ticket.paymentMethod := Some(payment);
      ticket.datePaid := if paid then Some(now) else None;
      ticket.dateClose := Some(now);
      err := None;
    }

    /** `list_tickets`: the open tickets. */
    function ListTickets(): (r: set<Ticket>)
      reads this, store, store.tickets
      ensures r <= store.tickets
      ensures forall t :: t in store.tickets ==> (t in r <==> !t.Closed())
    {
      set t | t in store.tickets && !t.Closed()
    }

    /** `subtotal`: 0 without a ticket, else the ticket's subtotal. */
    function Subtotal(): (r: Money)
      reads this, ticket, if ticket == null then {} else set l | l in ticket.lines
      ensures ticket == null ==> r == 0.0
      ensures ticket != null ==> r == SumSubtotal(ticket.lines)
    {
      if ticket == null then 0.0 else ticket.Subtotal()
    }

    /** `taxes`: 0 without a ticket, else the ticket's taxes. */
    function Taxes(): (r: Money)
      reads this, ticket, if ticket == null then {} else set l | l in ticket.lines
      ensures ticket == null ==> r == 0.0
      ensures ticket != null ==> r == SumTaxes(ticket.lines)
    {
      if ticket == null then 0.0 else ticket.Taxes()
    }

    /** `total`: 0 without a ticket, else the ticket's total. */
    function Total(): (r: Money)
      reads this, ticket, if ticket == null then {} else set l | l in ticket.lines
      ensures ticket == null ==> r == 0.0
      ensures ticket != null ==> r == SumTotal(ticket.lines)
    {
      if ticket == null then 0.0 else ticket.Total()
    }

    /**
     * `add_ticketline(data)`: a fresh line given `data` attribute by attribute.
     * The manager does not attach it to the selected ticket.
     */
    method AddTicketline(data: seq<LineOp>) returns (r: Result<TicketLine>)
      modifies this`notifications
      ensures ticket == null ==> r == Err(TicketSelection) && notifications == old(notifications)
      ensures ticket != null ==>
        && r.Ok? && fresh(r.value)
        && r.value.State() == Run(LineState("", 0.0, 1, 0, 0.0, false, None), data)
        && notifications == old(notifications) + 1
    {
      if ticket == null {
        return Err(TicketSelection);
      }
      var tl := new TicketLine();
      tl.Apply(data);
      UpdateTaxes();
      r := Ok(tl);
    }

    /** `edit_ticketline(tl, data)`: the attributes of `data` assigned in turn through the setters. */
    method EditTicketline(tl: TicketLine, data: seq<LineOp>) returns (err: Option<Error>)
      modifies this`notifications, tl
      ensures ticket == null ==> err == Some(TicketSelection) && unchanged(tl) && notifications == old(notifications)
      ensures ticket != null ==>
        err == None && tl.State() == Run(old(tl.State()), data) && notifications == old(notifications) + 1
    {
      if ticket == null {
        return Some(TicketSelection);
      }
      tl.Apply(data);
      UpdateTaxes();
      err := None;
    }

    /** `remove_ticketline(tl)`: deletes the line from the selected ticket. */
    method RemoveTicketline(tl: TicketLine) returns (err: Option<Error>)
      modifies this`notifications, ticket
      ensures old(ticket) == null ==> err == Some(TicketSelection) && notifications == old(notifications)
      ensures ticket != null ==>
        err == None && ticket.lines == Without(old(ticket.lines), tl) && ticket.Columns() == old(ticket.Columns())
        && notifications == old(notifications) + 1
    {
      if ticket == null {
        return Some(TicketSelection);
      }
      ticket.lines := Without(ticket.lines, tl);
      UpdateTaxes();
      err := None;
    }

    /** The stock check of `set_ticketline_amount`. */
    predicate ShortOfStock(tl: TicketLine, amount: int)
      reads tl
    {
      tl.product.Some? && tl.product.value.inStock && tl.product.value.quantity < amount
    }

    /**
     * `set_ticketline_amount(tl, amount, force)`: the same stock check and
     * force rule as the first generation. An amount of 0 or less removes the
     * line from the selected ticket; a line held only by another ticket is
     * not reached.
     */
    method SetTicketlineAmount(tl: TicketLine, amount: int, force: bool) returns (err: Option<Error>)
      modifies this`notifications, tl, ticket
      ensures ticket == old(ticket)
      ensures ticket != null ==> ticket.Columns() == old(ticket.Columns())
      ensures ticket == null ==> err == Some(TicketSelection)
      ensures ticket != null && amount > 0 && !force && old(ShortOfStock(tl, amount)) ==> err == Some(InsufficientStock)
      ensures err.Some? ==> unchanged(tl) && notifications == old(notifications) && (ticket != null ==> unchanged(ticket))
      ensures ticket != null && amount > 0 && (force || !old(ShortOfStock(tl, amount))) ==>
        && err == None
        && tl.State() == old(tl.State()).(amount := amount)
        && ticket.lines == old(ticket.lines)
      ensures ticket != null && amount <= 0 ==>
        && err == None
        && ticket.lines == Without(old(ticket.lines), tl)
        && unchanged(tl)
      // Deleting a line the ticket holds once drops one line and its subtotal.
      ensures ticket != null && amount <= 0 && multiset(old(ticket.lines))[tl] == 1 ==>
        && |ticket.lines| == |old(ticket.lines)| - 1
        && ticket.Subtotal() == old(ticket.Subtotal()) - old(tl.Subtotal())
      ensures err.None? ==> notifications == old(notifications) + 1
    {
      if ticket == null {
        return Some(TicketSelection);
      }
      if amount > 0 {
        if !force && ShortOfStock(tl, amount) {
          return Some(InsufficientStock);
        }
        tl.amount := amount;
      } else {
        if multiset(ticket.lines)[tl] == 1 {
          WithoutOnce(ticket.lines, tl);
        }
        ticket.lines := Without(ticket.lines, tl);
      }
      UpdateTaxes();
      err := None;
    }

    /**
     * `add_product(p)`: the guard and the signal. What the ticket's
     * `add_product` does is not part of this model.
     */
    method AddProduct(p: Product) returns (err: Option<Error>)
      modifies this`notifications
      ensures ticket == null ==> err == Some(TicketSelection) && notifications == old(notifications)
      ensures ticket != null ==> err == None && notifications == old(notifications) + 1
    {
      if ticket == null {
        return Some(TicketSelection);
      }
      UpdateTaxes();
      err := None;
    }

    /** The `currency` getter: the override first, then the selected ticket's currency, then the default. */
    function Currency(): (r: Catalog.Currency)
      reads this, ticket
      ensures currencyOverride.Some? ==> r == currencyOverride.value
      ensures currencyOverride.None? && ticket != null ==> r == ticket.currency
      ensures currencyOverride.None? && ticket == null ==> r == currencies.default
    {
      if currencyOverride.Some? then currencyOverride.value
      else if ticket != null then ticket.currency
      else currencies.default
    }

    /** The `currency` setter only stores the override (None stands for the default); no line changes. */
    method SetCurrency(c: Option<Catalog.Currency>)
      modifies this`currencyOverride
      ensures currencyOverride == Some(c.GetOr(currencies.default))
      ensures Currency() == c.GetOr(currencies.default)
    {
      if c.None? {
        currencyOverride := Some(currencies.default);
        return;
      }
      currencyOverride := c;
    }

    /**
     * `currency_display(value, src, dst)`: the value shown in `dst` (by
     * default the current currency), converted from `src` (by default the
     * ticket's currency) when the two differ. Without a ticket and without
     * `src`, nothing is converted.
     */
    function CurrencyDisplay(value: Money, src: Option<Catalog.Currency>, dst: Option<Catalog.Currency>): (r: Display)
      reads this, ticket
      ensures r.currency == dst.GetOr(Currency())
      ensures src.None? && ticket == null ==> r.value == value
      ensures src.Some? && src.value == r.currency ==> r.value == value
      ensures src.Some? && src.value != r.currency ==> r.value == currencies.convert(value, src.value, r.currency)
      ensures src.None? && ticket != null ==>
        r.value == if ticket.currency == r.currency then value else currencies.convert(value, ticket.currency, r.currency)
      // Without an override, the selected ticket's amounts show unconverted by default.
      ensures currencyOverride.None? && src.None? && dst.None? ==> r.value == value
    {
      var d := dst.GetOr(Currency());
      if src.None? && ticket == null then Display(d, value)
      else
        var s := if src.Some? then src.value else ticket.currency;
        if s == d then Display(d, value) else Display(d, currencies.convert(value, s, d))
    }

    predicate IsDiscountAllowed()
    {
      true
    }

    /** The `discount` getter: the ticket's discount as stored, in percent, or 0. */
    function Discount(): (r: real)
      reads this, ticket
      ensures ticket == null ==> r == 0.0
      ensures ticket != null ==> r == ticket.discount
    {
      if ticket == null then 0.0 else ticket.discount
    }

    /** The `discount` setter stores the value unscaled; the getter gives it back. */
    method SetDiscount(value: real) returns (err: Option<Error>)
      modifies ticket
      ensures old(ticket) == null ==> err == Some(TicketSelection)
      ensures ticket != null ==>
        err == None && Discount() == value && ticket.lines == old(ticket.lines)
        && ticket.Columns() == old(ticket.Columns()).(discount := value)
    {
      if ticket == null {
        return Some(TicketSelection);
      }
      ticket.discount := value;
      err := None;
    }

    function Customer(): (r: Option<Catalog.Customer>)
      reads this, ticket
      ensures ticket == null ==> r == None
      ensures ticket != null ==> r == ticket.customer
    {
      if ticket == null then None else ticket.customer
    }

    /** The `customer` setter: a customer brings its discount; clearing the customer clears the discount. */
    method SetCustomer(c: Option<Catalog.Customer>) returns (err: Option<Error>)
      modifies ticket
      ensures old(ticket) == null ==> err == Some(TicketSelection)
      ensures ticket != null ==>
        err == None && Customer() == c && Discount() == (if c.Some? then c.value.discount else 0.0)
        && ticket.lines == old(ticket.lines)
        && ticket.Columns() == old(ticket.Columns()).(customer := c, discount := if c.Some? then c.value.discount else 0.0)
    {
      if ticket == null {
        return Some(TicketSelection);
      }
      if c.Some? {
        ticket.customer := c;
        ticket.discount := c.value.discount;
      } else {
        ticket.customer := None;
        ticket.discount := 0.0;
      }
      err := None;
    }
  }
}
