/**
 * The first-generation ticket (cbpos/mod/sales/models/ticket.py) and the
 * database session it queries.
 *
 * The session holds the persisted rows: ticket lines (in the order a query
 * returns them), catalog products by key, and the tickets. A ticket's own
 * columns are fields of the `Ticket` class; its lines are the session rows
 * whose foreign key names it.
 */
module PosTicket {
  import opened Catalog
  import opened PosTicketLine

  /* ---------------------------------------------------------------------- */
  /* Queries over the line rows                                              */
  /* ---------------------------------------------------------------------- */

  /** The rows of ticket `id`, in session order (the filter `TicketLine.ticket == self`). */
  function LinesOf(lines: seq<Line>, id: TicketId): (r: seq<Line>)
    ensures |r| <= |lines|
  {
    if lines == [] then []
    else
      var last := lines[|lines| - 1];
      LinesOf(lines[..|lines| - 1], id) + (if last.ticket == Some(id) then [last] else [])
  }

  /** The rows of ticket `id` are exactly the session's rows whose foreign key names it. */
  lemma {:induction false} LinesOfMembers(lines: seq<Line>, id: TicketId)
    ensures forall l :: l in LinesOf(lines, id) <==> l in lines && l.ticket == Some(id)
  {
    if lines != [] {
      var init := lines[..|lines| - 1];
      LinesOfMembers(init, id);
      assert lines == init + [lines[|lines| - 1]];
    }
  }

  /** A key that no row carries has no lines. */
  lemma LinesOfNone(lines: seq<Line>, id: TicketId)
    requires forall l :: l in lines ==> l.ticket != Some(id)
    ensures LinesOf(lines, id) == []
  {
    LinesOfMembers(lines, id);
    if LinesOf(lines, id) != [] {
      assert LinesOf(lines, id)[0] in LinesOf(lines, id);
    }
  }

  /** Row `l` satisfies both foreign keys: its ticket key is one of `ids`, its product key, if set, one of `pids`. */
  predicate Keyed(l: Line, ids: set<TicketId>, pids: set<ProductId>)
  {
    l.ticket.Some? && l.ticket.value in ids && (l.product.Some? ==> l.product.value in pids)
  }

  predicate RowsKeyed(lines: seq<Line>, ids: set<TicketId>, pids: set<ProductId>)
  {
    forall l :: l in lines ==> Keyed(l, ids, pids)
  }

  /** Deleting ticket `id` leaves only rows keyed to the other tickets. */
  lemma WithoutTicketKeyed(lines: seq<Line>, id: TicketId, ids: set<TicketId>, pids: set<ProductId>)
    requires RowsKeyed(lines, ids, pids)
    ensures RowsKeyed(WithoutTicket(lines, id), ids - {id}, pids)
  {
  }

  lemma RowsKeyedWiden(lines: seq<Line>, ids: set<TicketId>, ids': set<TicketId>, pids: set<ProductId>)
    requires RowsKeyed(lines, ids, pids) && ids <= ids'
    ensures RowsKeyed(lines, ids', pids)
  {
  }

  lemma RowsKeyedReplace(lines: seq<Line>, i: nat, x: Line, ids: set<TicketId>, pids: set<ProductId>)
    requires i < |lines| && RowsKeyed(lines, ids, pids) && Keyed(x, ids, pids)
    ensures RowsKeyed(lines[i := x], ids, pids)
  {
    forall l | l in lines[i := x]
      ensures Keyed(l, ids, pids)
    {
      var k :| 0 <= k < |lines| && lines[i := x][k] == l;
      if k != i {
        assert lines[k] in lines;
      }
    }
  }

  lemma RowsKeyedDelete(lines: seq<Line>, i: nat, ids: set<TicketId>, pids: set<ProductId>)
    requires i < |lines| && RowsKeyed(lines, ids, pids)
    ensures RowsKeyed(lines[..i] + lines[i + 1..], ids, pids)
  {
    forall l | l in lines[..i] + lines[i + 1..]
      ensures Keyed(l, ids, pids)
    {
      assert l in lines[..i] || l in lines[i + 1..];
    }
  }

  /** `func.sum` of a per-line value; the sum of no rows is 0. */
  function Sum(ls: seq<Line>, f: Line -> Money): Money
  {
    if ls == [] then 0.0 else Sum(ls[..|ls| - 1], f) + f(ls[|ls| - 1])
  }

  function TaxesOf(l: Line): Money { l.taxes }

  lemma {:induction false} LinesOfConcat(a: seq<Line>, b: seq<Line>, id: TicketId)
    ensures LinesOf(a + b, id) == LinesOf(a, id) + LinesOf(b, id)
  {
    if b != [] {
      assert (a + b)[..|a + b| - 1] == a + b[..|b| - 1];
      LinesOfConcat(a, b[..|b| - 1], id);
    } else {
      assert a + b == a;
    }
  }

  lemma {:induction false} SumConcat(a: seq<Line>, b: seq<Line>, f: Line -> Money)
    ensures Sum(a + b, f) == Sum(a, f) + Sum(b, f)
  {
    if b != [] {
      assert (a + b)[..|a + b| - 1] == a + b[..|b| - 1];
      SumConcat(a, b[..|b| - 1], f);
    } else {
      assert a + b == a;
    }
  }

  /** Two per-line values that agree on every line have the same sum. */
  lemma {:induction false} SumAgree(ls: seq<Line>, f: Line -> Money, g: Line -> Money)
    requires forall l :: l in ls ==> f(l) == g(l)
    ensures Sum(ls, f) == Sum(ls, g)
  {
    if ls != [] {
      SumAgree(ls[..|ls| - 1], f, g);
    }
  }

  /** The rows of ticket `id` within one row: the row itself, or nothing. */
  function Own(l: Line, id: TicketId): seq<Line>
  {
    if l.ticket == Some(id) then [l] else []
  }

  /** The share of one row in a ticket's sum of `f`. */
  function Share(l: Line, id: TicketId, f: Line -> Money): Money
  {
    if l.ticket == Some(id) then f(l) else 0.0
  }

  lemma LinesOfSplit(pre: seq<Line>, x: Line, post: seq<Line>, id: TicketId)
    ensures LinesOf(pre + [x] + post, id) == LinesOf(pre, id) + Own(x, id) + LinesOf(post, id)
  {
    LinesOfConcat(pre + [x], post, id);
    LinesOfConcat(pre, [x], id);
    assert LinesOf([x], id) == Own(x, id) by { assert [x][..0] == []; }
  }

  lemma SumSplit(pre: seq<Line>, x: Line, post: seq<Line>, id: TicketId, f: Line -> Money)
    ensures Sum(LinesOf(pre + [x] + post, id), f) ==
            Sum(LinesOf(pre, id), f) + Share(x, id, f) + Sum(LinesOf(post, id), f)
  {
    LinesOfSplit(pre, x, post, id);
    SumConcat(LinesOf(pre, id) + Own(x, id), LinesOf(post, id), f);
    SumConcat(LinesOf(pre, id), Own(x, id), f);
    assert Sum(Own(x, id), f) == Share(x, id, f) by {
      if x.ticket == Some(id) { assert [x][..0] == []; }
    }
  }

  /**
   * Replacing row `j` changes a ticket's sum of `f` by removing the old row's
   * share and adding the new row's, each only if the row belongs to the ticket.
   */
  lemma SumAfterReplace(lines: seq<Line>, j: nat, l: Line, id: TicketId, f: Line -> Money)
    requires j < |lines|
    ensures Sum(LinesOf(lines[j := l], id), f) ==
            Sum(LinesOf(lines, id), f) - Share(lines[j], id, f) + Share(l, id, f)
  {
    var pre, post := lines[..j], lines[j + 1..];
    assert lines == pre + [lines[j]] + post;
    assert lines[j := l] == pre + [l] + post;
    SumSplit(pre, lines[j], post, id, f);
    SumSplit(pre, l, post, id, f);
  }

  /** Deleting row `j` removes its share from the sum of the ticket it belongs to. */
  lemma SumAfterDelete(lines: seq<Line>, j: nat, id: TicketId, f: Line -> Money)
    requires j < |lines|
    ensures Sum(LinesOf(lines[..j] + lines[j + 1..], id), f) ==
            Sum(LinesOf(lines, id), f) - Share(lines[j], id, f)
  {
    var pre, post := lines[..j], lines[j + 1..];
    assert lines == pre + [lines[j]] + post;
    SumSplit(pre, lines[j], post, id, f);
    LinesOfConcat(pre, post, id);
    SumConcat(LinesOf(pre, id), LinesOf(post, id), f);
  }

  /** Replacing a row that is not ticket `id`'s by another such row leaves ticket `id`'s lines as they were. */
  lemma ReplaceForeignRow(lines: seq<Line>, j: nat, l: Line, id: TicketId)
    requires j < |lines| && lines[j].ticket != Some(id) && l.ticket != Some(id)
    ensures LinesOf(lines[j := l], id) == LinesOf(lines, id)
  {
    var pre, post := lines[..j], lines[j + 1..];
    assert lines == pre + [lines[j]] + post;
    assert lines[j := l] == pre + [l] + post;
    LinesOfSplit(pre, lines[j], post, id);
    LinesOfSplit(pre, l, post, id);
  }

  /** Appending a row adds its share to the sum of the ticket it belongs to. */
  lemma SumAfterAppend(lines: seq<Line>, l: Line, id: TicketId, f: Line -> Money)
    ensures Sum(LinesOf(lines + [l], id), f) == Sum(LinesOf(lines, id), f) + Share(l, id, f)
  {
    assert lines + [l] == lines + [l] + [];
    SumSplit(lines, l, [], id, f);
  }

  /** The rows left once ticket `id` is deleted: its lines go with it (cascade "delete-orphan"). */
  function WithoutTicket(lines: seq<Line>, id: TicketId): (r: seq<Line>)
    ensures forall l :: l in r <==> l in lines && l.ticket != Some(id)
  {
    if lines == [] then []
    else
      var last := lines[|lines| - 1];
      WithoutTicket(lines[..|lines| - 1], id) + (if last.ticket == Some(id) then [] else [last])
  }

  /** Deleting one ticket leaves every other ticket's lines exactly as they were. */
  lemma {:induction false} WithoutTicketKeepsOthers(lines: seq<Line>, gone: TicketId, id: TicketId)
    ensures LinesOf(WithoutTicket(lines, gone), id) == if gone == id then [] else LinesOf(lines, id)
  {
    if lines != [] {
      var init, last := lines[..|lines| - 1], lines[|lines| - 1];
      WithoutTicketKeepsOthers(init, gone, id);
      LinesOfConcat(WithoutTicket(init, gone), if last.ticket == Some(gone) then [] else [last], id);
      assert LinesOf([last], id) == (if last.ticket == Some(id) then [last] else []) by {
        assert [last][..0] == [];
      }
      assert LinesOf([], id) == [];
    }
  }

  /* ---------------------------------------------------------------------- */
  /* The stock decrement of a close                                          */
  /* ---------------------------------------------------------------------- */

  /** Whether closing ticket `id` takes stock for row `l`: its product exists and tracks stock. */
  predicate TakesStock(ps: map<ProductId, Product>, l: Line, id: TicketId)
  {
    l.ticket == Some(id) && l.product.Some? && l.product.value in ps && ps[l.product.value].inStock
  }

  /** The catalog after closing ticket `id` has called `quantity_out(amount)` once per row of the join. */
  function Decremented(ps: map<ProductId, Product>, lines: seq<Line>, id: TicketId): (r: map<ProductId, Product>)
    ensures r.Keys == ps.Keys
    ensures forall pid :: pid in ps ==> r[pid].inStock == ps[pid].inStock
  {
    if lines == [] then ps
    else
      var before := Decremented(ps, lines[..|lines| - 1], id);
      var l := lines[|lines| - 1];
      if TakesStock(before, l, id) then before[l.product.value := QuantityOut(before[l.product.value], l.amount)]
      else before
  }

  /** Total amount on the rows of ticket `id` linked to product `pid`. */
  function AmountFor(lines: seq<Line>, id: TicketId, pid: ProductId): int
  {
    if lines == [] then 0
    else
      var l := lines[|lines| - 1];
      AmountFor(lines[..|lines| - 1], id, pid) + (if l.ticket == Some(id) && l.product == Some(pid) then l.amount else 0)
  }

  /**
   * Closing takes from each stock-tracked product the sum of the amounts of
   * the ticket's lines linked to it, and changes nothing else: not the
   * products that do not track stock, not any other column.
   */
  lemma {:induction false} DecrementedProduct(ps: map<ProductId, Product>, lines: seq<Line>, id: TicketId, pid: ProductId)
    requires pid in ps
    ensures Decremented(ps, lines, id)[pid] ==
            if ps[pid].inStock then QuantityOut(ps[pid], AmountFor(lines, id, pid)) else ps[pid]
  {
    if lines != [] {
      DecrementedProduct(ps, lines[..|lines| - 1], id, pid);
    }
  }

  /** A ticket with no line linked to a stock-tracked product leaves the catalog as it was. */
  lemma {:induction false} DecrementedNothing(ps: map<ProductId, Product>, lines: seq<Line>, id: TicketId)
    requires forall l :: l in lines ==> !TakesStock(ps, l, id)
    ensures Decremented(ps, lines, id) == ps
  {
    if lines != [] {
      DecrementedNothing(ps, lines[..|lines| - 1], id);
      assert lines[|lines| - 1] in lines;
    }
  }

  /**
   * Closing twice takes the stock twice: nothing in the `closed` setter
   * checks that the ticket was still open.
   */
  lemma ReclosingDecrementsAgain(ps: map<ProductId, Product>, lines: seq<Line>, id: TicketId, pid: ProductId)
    requires pid in ps && ps[pid].inStock
    ensures Decremented(Decremented(ps, lines, id), lines, id)[pid].quantity ==
            ps[pid].quantity - 2 * AmountFor(lines, id, pid)
  {
    var once := Decremented(ps, lines, id);
    DecrementedProduct(ps, lines, id, pid);
    DecrementedProduct(once, lines, id, pid);
  }

  /**
   * The ticket-wide discount applies to the line totals only: no discount
   * gives the line totals plus the taxes, a full discount (1.0) leaves only
   * the taxes, and when no line has a discount of its own the line totals are
   * the subtotal, so the total is the discounted subtotal plus the taxes.
   */
  lemma TicketTotalDiscount(t: Ticket, db: Session)
    ensures t.discount == 0.0 ==> t.Total(db) == Sum(LinesOf(db.lines, t.id), PosTicketLine.Total) + t.Taxes(db)
    ensures t.discount == 1.0 ==> t.Total(db) == t.Taxes(db)
    ensures (forall l :: l in LinesOf(db.lines, t.id) ==> l.discount == 0) ==>
      t.Total(db) == t.Subtotal(db) * (1.0 - t.discount) + t.Taxes(db)
  {
    var ls := LinesOf(db.lines, t.id);
    var lineTotals, taxes := Sum(ls, PosTicketLine.Total), t.Taxes(db);
    assert t.Total(db) == lineTotals * (1.0 - t.discount) + taxes;
    if t.discount == 0.0 {
      assert lineTotals * (1.0 - t.discount) == lineTotals;
    }
    if t.discount == 1.0 {
      assert lineTotals * (1.0 - t.discount) == 0.0;
    }
    if forall l :: l in ls ==> l.discount == 0 {
      SumAgree(ls, PosTicketLine.Total, PosTicketLine.Subtotal);
      assert lineTotals == t.Subtotal(db);
    }
  }

  /* ---------------------------------------------------------------------- */
  /* Session and ticket                                                      */
  /* ---------------------------------------------------------------------- */

  /** The database session: every persisted row the sales core reads or writes. */
  class Session {
    var lines: seq<Line>
    var products: map<ProductId, Product>
    var tickets: set<Ticket>
    var nextTicketId: TicketId

    constructor (catalog: map<ProductId, Product>)
      ensures lines == [] && products == catalog && tickets == {} && nextTicketId == 0
    {
      lines := [];
      products := catalog;
      tickets := {};
      nextTicketId := 0;
    }

    /** The keys of the persisted tickets. */
    function TicketIds(): set<TicketId>
      reads this`tickets
    {
      set t | t in tickets :: t.id
    }

    /**
     * The constraints of the tables: ticket keys are distinct and below the
     * next key to be issued, every row's `ticket_id` (NOT NULL, a foreign
     * key) names a persisted ticket, and every `product_id` that is set
     * names a catalog product.
     */
    predicate Valid()
      reads this
    {
      && (forall t :: t in tickets ==> t.id < nextTicketId)
      && (forall t, u :: t in tickets && u in tickets && t.id == u.id ==> t == u)
      && RowsKeyed(lines, TicketIds(), products.Keys)
    }

    /**
     * Keyword arguments whose `ticket` and `product` name persisted rows, as
     * passing objects does; an explicit None is allowed here.
     */
    predicate KeyedKwargs(kw: Kwargs)
      reads this`tickets, this`products
    {
      && (kw.ticket.Some? && kw.ticket.value.Some? ==> kw.ticket.value.value in TicketIds())
      && (kw.product.Some? && kw.product.value.Some? ==> kw.product.value.value in products)
    }

    /** The product a row links to, or None when it has none or the key is dangling. */
    function ProductOf(l: Line): (r: Option<Product>)
      reads this
      ensures r.Some? <==> l.product.Some? && l.product.value in products
      ensures r.Some? ==> r.value == products[l.product.value]
    {
      if l.product.Some? && l.product.value in products then Some(products[l.product.value]) else None
    }

    /** `tl.update(**kw)` on row `i`. */
    method UpdateLine(i: nat, kw: Kwargs)
      requires Valid() && KeyedKwargs(kw) && kw.ticket != Some(None)
      requires i < |lines|
      modifies this`lines
      ensures lines == old(lines)[i := Update(old(lines)[i], kw)]
      ensures Valid()
    {
      assert lines[i] in lines;
      RowsKeyedReplace(lines, i, Update(lines[i], kw), TicketIds(), products.Keys);
      lines := lines[i := Update(lines[i], kw)];
    }

    /**
     * `TicketLine()` followed by `update(**kw)` naming a ticket: through the
     * ticket's relationship the new row joins the session last.
     */
    method AddLine(kw: Kwargs) returns (i: nat)
      requires Valid() && KeyedKwargs(kw) && kw.ticket.Some? && kw.ticket.value.Some?
      modifies this`lines
      ensures lines == old(lines) + [Update(NewLine(), kw)]
      ensures i == |old(lines)| && i < |lines|
      ensures Valid()
    {
      i := |lines|;
      lines := lines + [Update(NewLine(), kw)];
    }

    /** `tl.delete()` on row `i`. */
    method DeleteLine(i: nat)
      requires Valid() && i < |lines|
      modifies this`lines
      ensures lines == old(lines)[..i] + old(lines)[i + 1..]
      ensures |lines| == |old(lines)| - 1
      ensures Valid()
    {
      RowsKeyedDelete(lines, i, TicketIds(), products.Keys);
      lines := lines[..i] + lines[i + 1..];
    }

    /** `Ticket()` followed by `update(discount=0, currency=c)`; the ticket is persisted. */
    method NewTicket(c: Currency) returns (t: Ticket)
      requires Valid()
      modifies this`tickets, this`nextTicketId
      ensures fresh(t) && t.id == old(nextTicketId) && nextTicketId == old(nextTicketId) + 1
      ensures tickets == old(tickets) + {t}
      ensures t.id !in old(TicketIds()) && LinesOf(lines, t.id) == []
      ensures t.currency == c && t.discount == 0.0 && t.customer == None
      ensures !t.Paid() && !t.Closed() && t.paymentMethod == None
      ensures Valid()
    {
      forall l | l in lines
        ensures l.ticket != Some(nextTicketId)
      {
        assert Keyed(l, TicketIds(), products.Keys);
      }
      LinesOfNone(lines, nextTicketId);
      t := new Ticket(nextTicketId, c);
      tickets := tickets + {t};
      nextTicketId := nextTicketId + 1;
    }

    /** `ticket.delete()`: the ticket row goes, and its lines with it. */
    method DeleteTicket(t: Ticket)
      requires Valid()
      modifies this`tickets, this`lines
      ensures tickets == old(tickets) - {t}
      ensures lines == WithoutTicket(old(lines), t.id)
      ensures LinesOf(lines, t.id) == []
      ensures Valid()
    {
      ghost var ids := TicketIds();
      WithoutTicketKeyed(lines, t.id, ids, products.Keys);
      tickets := tickets - {t};
      lines := WithoutTicket(lines, t.id);
      WithoutTicketKeepsOthers(old(lines), t.id, t.id);
      forall i | i in ids - {t.id}
        ensures i in TicketIds()
      {
        var u :| u in old(tickets) && u.id == i;
        assert u in tickets;
      }
      RowsKeyedWiden(lines, ids - {t.id}, TicketIds(), products.Keys);
    }
  }

  /** A ticket's own columns as a value, to state what a setter leaves alone. */
  datatype TicketColumns = TicketColumns(
    datePaid: Option<nat>,
    dateClose: Option<nat>,
    paymentMethod: Option<string>,
    discount: real,
    currency: Currency,
    customer: Option<Customer>)

  /**
   * A ticket's own columns. Timestamps become the `now` a caller passes in:
   * `date_paid` and `date_close` are set (Some) or cleared (None).
   */
  class Ticket {
    const id: TicketId
    var datePaid: Option<nat>
    var dateClose: Option<nat>
    var paymentMethod: Option<string>
    /** The ticket-wide discount, as a fraction (0.1 is ten percent). */
    var discount: real
    var currency: Currency
    var customer: Option<Customer>

    constructor (id: TicketId, c: Currency)
      ensures this.id == id && currency == c && discount == 0.0 && customer == None
      ensures datePaid == None && dateClose == None && paymentMethod == None
    {
      this.id := id;
      currency := c;
      discount := 0.0;
      customer := None;
      datePaid := None;
      dateClose := None;
      paymentMethod := None;
    }

    function Columns(): TicketColumns
      reads this
    {
      TicketColumns(datePaid, dateClose, paymentMethod, discount, currency, customer)
    }

    /** `paid` holds exactly when `date_paid` is set. */
    predicate Paid()
      reads this
    {
      datePaid.Some?
    }

    /** The `paid` setter: true stamps `date_paid`, false clears it. */
    method SetPaid(value: bool, now: nat)
      modifies this`datePaid
      ensures Paid() == value
      ensures datePaid == if value then Some(now) else None
    {
      if value {
        datePaid := Some(now);
      } else {
        datePaid := None;
      }
    }

    /** `pay(method, paid)`: records the payment method, then sets `paid`. */
    method Pay(payment: string, value: bool, now: nat)
      modifies this`paymentMethod, this`datePaid
      ensures paymentMethod == Some(payment)
      ensures Paid() == value && datePaid == if value then Some(now) else None
    {
      paymentMethod := Some(payment);
      SetPaid(value, now);
    }

    /** `closed` holds exactly when `date_close` is set. */
    predicate Closed()
      reads this
    {
      dateClose.Some?
    }

    /**
     * The `closed` setter. True stamps `date_close` and calls `quantity_out`
     * for every line of this ticket whose product tracks stock; there is no
     * check that the ticket was open, so each assignment of true takes the
     * stock again. False only clears `date_close`: no stock comes back.
     */
    method SetClosed(value: bool, now: nat, db: Session)
      requires db.Valid()
      modifies this`dateClose, db`products
      ensures db.Valid()
      ensures Closed() == value
      ensures dateClose == if value then Some(now) else None
      ensures db.products == if value then Decremented(old(db.products), db.lines, id) else old(db.products)
    {
      if value {
        dateClose := Some(now);
        var i := 0;
        while i < |db.lines|
          invariant 0 <= i <= |db.lines|
          invariant dateClose == Some(now)
          invariant db.products == Decremented(old(db.products), db.lines[..i], id)
          invariant db.Valid()
        {
          assert db.lines[..i + 1][..i] == db.lines[..i];
          var l := db.lines[i];
          if TakesStock(db.products, l, id) {
            var pid := l.product.value;
            db.products := db.products[pid := QuantityOut(db.products[pid], l.amount)];
          }
          i := i + 1;
        }
        assert db.lines[..i] == db.lines;
      } else {
        dateClose := None;
      }
    }

    /** The sum of the taxes of all of this ticket's lines. */
    function Taxes(db: Session): (r: Money)
      reads db
      ensures LinesOf(db.lines, id) == [] ==> r == 0.0
    {
      Sum(LinesOf(db.lines, id), TaxesOf)
    }

    /** The sum of the line subtotals: amount times price, before any discount or tax. */
    function Subtotal(db: Session): (r: Money)
      reads db
      ensures LinesOf(db.lines, id) == [] ==> r == 0.0
    {
      Sum(LinesOf(db.lines, id), PosTicketLine.Subtotal)
    }

    /**
     * The ticket-wide discount (a fraction) applies to the sum of the line
     * totals, which carry no tax; the taxes are added back undiscounted.
     */
    function Total(db: Session): (r: Money)
      reads this, db
      ensures LinesOf(db.lines, id) == [] ==> r == 0.0
      ensures r == Sum(LinesOf(db.lines, id), PosTicketLine.Total) * (1.0 - discount) + Taxes(db)
    {
      Sum(LinesOf(db.lines, id), PosTicketLine.Total) * (1.0 - discount) + Taxes(db)
    }

    /**
     * `addLineFromProduct(p)`. The lookup runs over every line in the session,
     * not only this ticket's: the first unedited line linked to `p` gets one
     * more unit, whichever ticket it is on. Otherwise a new line for this
     * ticket is created at the product's price converted into the ticket's
     * currency.
     */
    method AddLineFromProduct(p: ProductId, db: Session, cs: CurrencyService)
      requires db.Valid() && this in db.tickets && p in db.products
      modifies db`lines
      ensures FindUnedited(old(db.lines), p).Some? ==>
        db.lines == Bumped(old(db.lines), FindUnedited(old(db.lines), p).value)
      ensures FindUnedited(old(db.lines), p).None? ==>
        db.lines == old(db.lines) + [LineFromProduct(db.products[p], p, id, cs.convert(db.products[p].price, db.products[p].currency, currency))]
      ensures db.Valid()
    {
      var found := FindUnedited(db.lines, p);
      if found.Some? {
        var j := found.value;
        AmountUpdateKeepsFlag(db.lines[j], db.lines[j].amount + 1);
        db.UpdateLine(j, AmountKwargs(db.lines[j].amount + 1));
      } else {
        var product := db.products[p];
        var sellPrice := cs.convert(product.price, product.currency, currency);
        var _ := db.AddLine(Kwargs(Some(product.name), Some(sellPrice), Some(1), Some(0), None,
                                   Some(false), Some(Some(id)), Some(Some(p))));
      }
    }
  }

  /** Whether row `l` is an unedited line linked to product `p` (the filter of the lookup). */
  predicate Mergeable(l: Line, p: ProductId)
  {
    l.product == Some(p) && !l.isEdited
  }

  /** The first row of the lookup `TicketLine.product == p & ~TicketLine.is_edited`, if any. */
  function FindUnedited(lines: seq<Line>, p: ProductId): (r: Option<nat>)
    ensures r.Some? ==> r.value < |lines| && Mergeable(lines[r.value], p)
    ensures r.Some? ==> forall k :: 0 <= k < r.value ==> !Mergeable(lines[k], p)
    ensures r.None? ==> forall k :: 0 <= k < |lines| ==> !Mergeable(lines[k], p)
  {
    if lines == [] then None
    else if Mergeable(lines[0], p) then Some(0)
    else
      match FindUnedited(lines[1..], p)
      case None => None
      case Some(j) => Some(j + 1)
  }

  /** The line `addLineFromProduct` creates: the product's name, the converted price, one unit, unedited. */
  function LineFromProduct(product: Product, p: ProductId, id: TicketId, sellPrice: Money): (r: Line)
    ensures r == Update(NewLine(), Kwargs(Some(product.name), Some(sellPrice), Some(1), Some(0), None,
                                          Some(false), Some(Some(id)), Some(Some(p))))
    ensures r.amount == 1 && r.discount == 0 && !r.isEdited && Mergeable(r, p)
  {
    Line(product.name, sellPrice, 1, 0, 0.0, false, Some(id), Some(p))
  }

  /**
   * Adding a product to one ticket can bump a line of another ticket: the
   * lookup is not restricted to the ticket, so the ticket that asked for the
   * product gets no line while the other ticket's amount grows.
   */
  lemma AddLineCanLandOnOtherTicket(lines: seq<Line>, p: ProductId, id: TicketId)
    requires FindUnedited(lines, p).Some?
    requires lines[FindUnedited(lines, p).value].ticket != Some(id)
    ensures LinesOf(Bumped(lines, FindUnedited(lines, p).value), id) == LinesOf(lines, id)
  {
    var j := FindUnedited(lines, p).value;
    var bumped := lines[j].(amount := lines[j].amount + 1);
    assert Bumped(lines, j) == lines[j := bumped];
    ReplaceForeignRow(lines, j, bumped, id);
  }

  /** A mergeable row appended after rows with none becomes the row the lookup finds. */
  lemma {:induction false} FindUneditedAppend(lines: seq<Line>, x: Line, p: ProductId)
    requires FindUnedited(lines, p).None? && Mergeable(x, p)
    ensures FindUnedited(lines + [x], p) == Some(|lines|)
  {
    if lines != [] {
      assert (lines + [x])[1..] == lines[1..] + [x];
      FindUneditedAppend(lines[1..], x, p);
    }
  }

  /** The rows after `addLineFromProduct` has bumped row `j` by one unit. */
  function Bumped(lines: seq<Line>, j: nat): (r: seq<Line>)
    requires j < |lines|
    ensures |r| == |lines| && r[j].amount == lines[j].amount + 1
  {
    lines[j := lines[j].(amount := lines[j].amount + 1)]
  }

  /**
   * Adding a product twice when no unedited line for it exists anywhere: the
   * first call appends one line, the second finds that very line and bumps
   * it, so the ticket ends with exactly one more line, of amount 2, and its
   * subtotal grows by twice the converted price.
   */
  lemma AddProductTwiceMerges(lines: seq<Line>, product: Product, p: ProductId, id: TicketId, sellPrice: Money)
    requires FindUnedited(lines, p).None?
    ensures FindUnedited(lines + [LineFromProduct(product, p, id, sellPrice)], p) == Some(|lines|)
    ensures Bumped(lines + [LineFromProduct(product, p, id, sellPrice)], |lines|) ==
            lines + [LineFromProduct(product, p, id, sellPrice).(amount := 2)]
    ensures Sum(LinesOf(lines + [LineFromProduct(product, p, id, sellPrice).(amount := 2)], id), PosTicketLine.Subtotal) ==
            Sum(LinesOf(lines, id), PosTicketLine.Subtotal) + 2.0 * sellPrice
  {
    var x := LineFromProduct(product, p, id, sellPrice);
    FindUneditedAppend(lines, x, p);
    assert Bumped(lines + [x], |lines|) == lines + [x.(amount := 2)];
    SumAfterAppend(lines, x.(amount := 2), id, PosTicketLine.Subtotal);
  }
}
