# Sales ticket engine: a Dafny model

This project models the ticket pricing and lifecycle engine of the coinbox
point-of-sale sales module. Two generations of the module are modelled side
by side, each in its own Dafny modules:

- `cbpos/mod/sales/...` (first generation):
  - `PosTicketLine` (pos_ticketline.dfy): the ticket line row, its
    `update(**kwargs)` edit-detection override, and its `total` and
    `subtotal`.
  - `PosTicket` (pos_ticket.dfy): the database session holding line rows,
    products and tickets. It also has the `Ticket` class with `paid`/`pay`,
    the `closed` setter and its stock decrement, the `taxes`/`subtotal`/`total`
    aggregates, and `addLineFromProduct`.
  - `PosManager` (pos_manager.dfy): the `SalesManager` controller.
- `cbmod/sales/...` (second generation):
  - `ModTicketLine` (mod_ticketline.dfy): the ticket line as an object whose
    property setters for `product`, `description`, `sell_price` and
    `is_edited` keep the `is_edited` flag. It also has `total` (with taxes)
    and `subtotal`.
  - `ModManager` (mod_manager.dfy): the second `SalesManager`. It returns
    numeric aggregates, lets the currency override win, adds
    `currency_display` and `payment_methods`, and keeps the discount unscaled.
- `Catalog` (catalog.dfy): the collaborators both generations share.
  - Products, customers and currencies.
  - The currency service: the default currency and an uninterpreted `convert`.
  - `Product.quantity_out`.
  - The two errors the managers raise.

How the source's runtime is represented:
- Money is `real`.
- Database timestamps (`func.now()`) are a `now` argument stored as `Some(now)`.
- The `update-taxes` signal is a counter, `notifications`.
- `Currency.format(value)` is the `Display(currency, value)` value.
- A `TicketSelectionException` or the stock `ValueError` is an `Error` value
  returned in place of raising. Every error path leaves the state unchanged.

In the first generation, line rows live in `Session.lines`. A row names its
ticket by key, and a ticket's lines are the rows whose key names it, in
session order (`LinesOf`). `Session.Valid()` holds the table constraints:
ticket keys are distinct and below the next key to be issued, every row's
`ticket_id` (NOT NULL) names a persisted ticket, and every `product_id` that
is set names a catalog product. Every operation that writes the session
keeps it. In the second generation, the lines are
`TicketLine` objects held by a minimal `Ticket`. The cbmod Ticket model is not
part of this model; its `Ticket` carries only what the manager reads and
writes.

## Model

| member | source | states |
|---|---|---|
| Catalog.QuantityOut | cbpos/mod/sales/models/ticket.py:65-66 | `quantity_out(amount)` takes exactly `amount` off the product's quantity and changes no other attribute |
| Catalog.Discounted | cbpos/mod/sales/models/ticketline.py:48 | a percent discount: 0 keeps the value, 100 gives 0, and one in [0,100] keeps a non-negative value between 0 and itself |
| PosTicketLine.NewLine | cbpos/mod/sales/models/ticketline.py:14-22 | a new line has the column defaults: amount 1, discount 0, price and taxes 0, empty description, unedited, no ticket or product |
| PosTicketLine.Inject | cbpos/mod/sales/models/ticketline.py:27-31 | on an unedited line linked to a product, `is_edited` is injected as "description or price differs from the line's current value", judged against the product linked before the update; otherwise the kwargs pass through; no other key is touched |
| PosTicketLine.Assign | cbpos/mod/sales/models/ticketline.py:33 | every passed key is assigned and every other column keeps its value; no kwargs means no change |
| PosTicketLine.Update | cbpos/mod/sales/models/ticketline.py:27-33 | on an unedited linked line the flag becomes exactly "description changed or price changed", overriding a caller's `is_edited`; on an edited or unlinked line the caller's `is_edited` (False included) is stored; every other column is the passed value or the old one |
| PosTicketLine.Total | cbpos/mod/sales/models/ticketline.py:43-52 | line total has no tax term: discount 0 gives the subtotal, discount 100 gives 0, and a discount in [0,100] keeps a non-negative total between 0 and the subtotal |
| PosTicketLine.Subtotal | cbpos/mod/sales/models/ticketline.py:54-63 | subtotal is 0 when amount or price is 0 and non-negative for non-negative amount and price |
| PosTicketLine.SubtotalExcludesDiscount | cbpos/mod/sales/models/ticketline.py:43-63 | the line discount never changes the net amount, and the total is the net amount discounted by it |
| PosTicketLine.SubtotalGetterAsWritten | cbpos/mod/sales/models/ticketline.py:54-63 | reading `subtotal` on a line runs the total's getter: without a discount it is the net amount, with 100 percent it is 0 |
| PosTicketLine.TotalExpressionAsWritten | cbpos/mod/sales/models/ticketline.py:50-63 | before SQLAlchemy 1.2 the SQL expression of `total` is the undiscounted amount times price, whatever the line discount |
| PosTicketLine.SubtotalDecoratorDiscrepancy | cbpos/mod/sales/models/ticketline.py:43-63 | on one unit at 10.0 with a 10 percent discount, the net amount is 10.0 and the total 9.0, while the `subtotal` getter answers 9.0 and the overwritten total expression 10.0 |
| PosTicketLine.AmountUpdateKeepsFlag | cbpos/mod/sales/models/ticketline.py:27-33 | an amount-only update changes the amount and nothing else, so it never marks a line edited |
| PosTicketLine.EditedLineCanBeReset | cbpos/mod/sales/models/ticketline.py:28-33 | the flag is not monotone: an edited line given `is_edited=False` becomes unedited |
| PosTicket.LinesOf | cbpos/mod/sales/models/ticket.py:81 | the filter `TicketLine.ticket == self`: a ticket never has more lines than the session holds |
| PosTicket.LinesOfNone | cbpos/mod/sales/models/ticket.py:81 | a key that no row carries has no lines |
| PosTicket.Sum | cbpos/mod/sales/models/ticket.py:81-82 | `func.sum` of a per-line value over the rows; no rows sum to 0 |
| PosTicket.TakesStock | cbpos/mod/sales/models/ticket.py:62-64 | the join filter of the close: the row is on this ticket and links an existing product that tracks stock |
| PosTicket.Mergeable | cbpos/mod/sales/models/ticket.py:119 | the lookup filter: the row links the product and is not edited |
| PosTicket.TicketTotalDiscount | cbpos/mod/sales/models/ticket.py:84-98 | the ticket-wide discount applies only to the line totals: discount 0 gives the line totals plus the taxes, discount 1.0 leaves the taxes, and with no line discounts the total is the discounted subtotal plus the taxes |
| PosTicket.Ticket.Paid | cbpos/mod/sales/models/ticket.py:32-34 | `paid` holds exactly when `date_paid` is set |
| PosTicket.Ticket.Closed | cbpos/mod/sales/models/ticket.py:53-55 | `closed` holds exactly when `date_close` is set |
| PosTicket.LinesOfMembers | cbpos/mod/sales/models/ticket.py:81 | a ticket's lines are exactly the session rows whose ticket key names it |
| PosTicket.SumAfterReplace | cbpos/mod/sales/models/ticket.py:100-107 | rewriting one row changes a ticket's sum by the new row's share minus the old row's share, each counted only when the row belongs to that ticket |
| PosTicket.SumAfterDelete | cbpos/mod/sales/models/ticket.py:100-107 | deleting one row takes exactly its share off the sum of the ticket it belongs to |
| PosTicket.SumAfterAppend | cbpos/mod/sales/models/ticket.py:100-107 | appending a row adds exactly its share to the sum of the ticket it belongs to |
| PosTicket.ReplaceForeignRow | cbpos/mod/sales/models/ticket.py:119-121 | rewriting a row of another ticket leaves this ticket's lines unchanged |
| PosTicket.WithoutTicket | cbpos/mod/sales/models/ticketline.py:24 | deleting a ticket deletes its lines (cascade) and keeps every other row |
| PosTicket.WithoutTicketKeepsOthers | cbpos/mod/sales/models/ticketline.py:24 | after a ticket is deleted it has no lines left, and every other ticket has exactly the lines it had |
| PosTicket.Decremented | cbpos/mod/sales/models/ticket.py:60-66 | closing keeps the set of products and every product's stock-tracking flag |
| PosTicket.DecrementedProduct | cbpos/mod/sales/models/ticket.py:60-66 | closing takes from each stock-tracked product the total amount of the ticket's lines linked to it, and leaves products that do not track stock as they were |
| PosTicket.DecrementedNothing | cbpos/mod/sales/models/ticket.py:60-66 | a ticket with no line linked to a stock-tracked product leaves the catalog unchanged |
| PosTicket.ReclosingDecrementsAgain | cbpos/mod/sales/models/ticket.py:57-69 | closing a ticket twice takes twice the ticket's amount from each stock-tracked product |
| PosTicket.FindUneditedAppend | cbpos/mod/sales/models/ticket.py:119-126 | a line `addLineFromProduct` has just created is the one the next lookup for that product finds |
| PosTicket.Bumped | cbpos/mod/sales/models/ticket.py:121 | bumping a line keeps the row count and adds exactly one unit to that line |
| PosTicket.AddProductTwiceMerges | cbpos/mod/sales/models/ticket.py:117-126 | adding a product twice, with no unedited line for it anywhere, leaves one new line of amount 2, and the subtotal grows by twice the converted price |
| PosTicket.Session.ProductOf | cbpos/mod/sales/controllers/manager.py:115-116 | a line's product is found exactly when it has a product key that is in the catalog |
| PosTicket.Session.UpdateLine | cbpos/mod/sales/models/ticketline.py:27-33 | `tl.update(**kw)` rewrites one row by `Update` and leaves every other row alone; with keys naming persisted rows and no None ticket, the table constraints still hold |
| PosTicket.Session.AddLine | cbpos/mod/sales/controllers/manager.py:85-86 | `TicketLine()` then `update(**kw)` naming a ticket appends exactly one row, the updated default line, and the table constraints still hold |
| PosTicket.Session.DeleteLine | cbpos/mod/sales/controllers/manager.py:104 | `tl.delete()` removes exactly that row, keeping the order of the others and the table constraints |
| PosTicket.Session.NewTicket | cbpos/mod/sales/controllers/manager.py:36-38 | a new persisted ticket has a key no persisted ticket has and no row carries, so it owns no lines; it has the given currency, discount 0, no customer, and is neither paid nor closed; the table constraints still hold |
| PosTicket.Session.DeleteTicket | cbpos/mod/sales/controllers/manager.py:45 | the ticket is removed with all of its lines, and the table constraints still hold |
| PosTicket.Ticket.SetPaid | cbpos/mod/sales/models/ticket.py:32-45 | `paid` afterwards equals the value assigned; true stamps `date_paid`, false clears it |
| PosTicket.Ticket.Pay | cbpos/mod/sales/models/ticket.py:47-51 | records the payment method and sets `paid` to the given value |
| PosTicket.Ticket.SetClosed | cbpos/mod/sales/models/ticket.py:53-73 | `closed` afterwards equals the value assigned; true stamps `date_close` and decrements the stock (each time it is assigned); false leaves every product unchanged |
| PosTicket.Ticket.Taxes | cbpos/mod/sales/models/ticket.py:75-82 | taxes is the sum of the line taxes; a ticket with no lines has 0 |
| PosTicket.Ticket.Subtotal | cbpos/mod/sales/models/ticket.py:100-107 | subtotal is the sum of the line subtotals; a ticket with no lines has 0 |
| PosTicket.Ticket.Total | cbpos/mod/sales/models/ticket.py:84-98 | total is the sum of the line totals times one minus the fractional discount, plus the undiscounted taxes; an empty ticket totals 0 |
| PosTicket.Ticket.AddLineFromProduct | cbpos/mod/sales/models/ticket.py:117-126 | when an unedited line linked to the product exists, the first one gets exactly one more unit and no line is created; otherwise exactly one line is appended with the product's name, the converted price, amount 1, discount 0, this ticket, the product, unedited |
| PosTicket.FindUnedited | cbpos/mod/sales/models/ticket.py:119-120 | finds the first unedited line linked to the product across all rows, or reports that there is none |
| PosTicket.LineFromProduct | cbpos/mod/sales/models/ticket.py:123-126 | the new line is what `update` makes of a default line with those keys: amount 1, discount 0, unedited, linked to the product |
| PosTicket.AddLineCanLandOnOtherTicket | cbpos/mod/sales/models/ticket.py:119-121 | when the first unedited line for the product belongs to another ticket, the ticket that asked gets no new line and its lines stay as they were |
| PosManager.RepriceLine | cbpos/mod/sales/controllers/manager.py:157-160 | a line of the ticket gets the converted price and is marked edited when it is linked and the price changes; other rows and other columns are untouched |
| PosManager.Repriced | cbpos/mod/sales/controllers/manager.py:157-161 | the currency setter's loop reprices every row in place and keeps the row count |
| PosManager.RepriceEmptyTicket | cbpos/mod/sales/controllers/manager.py:157-161 | a ticket with no lines only changes its currency tag: no price changes |
| PosManager.SubtotalAfterAmount | cbpos/mod/sales/controllers/manager.py:118 | setting a line's amount moves its ticket's subtotal by the change in amount times the price, and leaves other tickets' subtotals alone |
| PosManager.AmountChange | cbpos/mod/sales/controllers/manager.py:118 | what setting a row's amount adds to a ticket's subtotal: nothing when the row is another ticket's, the amount is unchanged or the price is 0 |
| PosManager.AmountUpdateSubtotal | cbpos/mod/sales/controllers/manager.py:118 | `update(amount=n)` on a row rewrites only its amount, and the ticket's subtotal moves by that row's change |
| PosManager.SalesManager.UpdateTaxes | cbpos/mod/sales/controllers/manager.py:131-132 | one more totals-changed signal |
| PosManager.SalesManager.SelectTicket | cbpos/mod/sales/controllers/manager.py:30-33 | selects the ticket (or none) and signals |
| PosManager.SalesManager.NewTicket | cbpos/mod/sales/controllers/manager.py:35-40 | a persisted ticket with no lines, so subtotal and total 0, discount 0 and the default currency, neither paid nor closed; the selection does not change |
| PosManager.SalesManager.CancelTicket | cbpos/mod/sales/controllers/manager.py:42-46 | without a ticket, the selection error and no change; otherwise the ticket and its lines are deleted and the selection is cleared |
| PosManager.SalesManager.CloseTicket | cbpos/mod/sales/controllers/manager.py:48-52 | without a ticket, the selection error and no change; otherwise the payment is recorded, the ticket is closed and the stock is decremented |
| PosManager.SalesManager.ListTickets | cbpos/mod/sales/controllers/manager.py:54-56 | exactly the persisted tickets that are not closed |
| PosManager.SalesManager.Subtotal | cbpos/mod/sales/controllers/manager.py:58-63 | the selected ticket's subtotal, or 0, shown in the current currency |
| PosManager.SalesManager.Taxes | cbpos/mod/sales/controllers/manager.py:65-70 | the selected ticket's taxes, or 0, shown in the current currency |
| PosManager.SalesManager.Total | cbpos/mod/sales/controllers/manager.py:72-77 | the selected ticket's total, or 0, shown in the current currency |
| PosManager.SalesManager.AddTicketline | cbpos/mod/sales/controllers/manager.py:81-90 | without a ticket, the selection error and no change; otherwise the updated default line is returned, and it is appended as a row exactly when `data` names a ticket (that ticket, not the selected one) |
| PosManager.SalesManager.EditTicketline | cbpos/mod/sales/controllers/manager.py:92-98 | without a ticket, the selection error and no change; otherwise the row is rewritten by `update` |
| PosManager.SalesManager.RemoveTicketline | cbpos/mod/sales/controllers/manager.py:100-106 | without a ticket, the selection error and no change; otherwise exactly that row is removed |
| PosManager.SalesManager.ShortOfStock | cbpos/mod/sales/controllers/manager.py:115-116 | the line's product exists, tracks stock and has less than the requested amount |
| PosManager.SalesManager.SetTicketlineAmount | cbpos/mod/sales/controllers/manager.py:108-122 | selection error without a ticket; stock error, with the line unchanged, for a positive amount above a stock-tracked product's quantity unless forced; otherwise a positive amount is stored without marking the line edited and moves the subtotal by the change times the price; an amount of 0 or less deletes the line: one line fewer and its share off the subtotal |
| PosManager.SalesManager.AddProduct | cbpos/mod/sales/controllers/manager.py:124-129 | selection error and no change without a ticket; otherwise the find-or-insert rule of `addLineFromProduct` on the selected ticket |
| PosManager.SalesManager.Currency | cbpos/mod/sales/controllers/manager.py:140-148 | the selected ticket's currency, else the override, else the default |
| PosManager.SalesManager.SetCurrency | cbpos/mod/sales/controllers/manager.py:150-163 | None stores the default as the override and changes nothing else; a currency is stored, and with a ticket selected every line of the ticket is converted from the ticket's old currency and the ticket is re-tagged, its other columns unchanged; the getter then returns the new currency |
| PosManager.SalesManager.IsDiscountAllowed | cbpos/mod/sales/controllers/manager.py:165-166 | a discount is always allowed |
| PosManager.SalesManager.Discount | cbpos/mod/sales/controllers/manager.py:168-174 | 0 without a ticket; otherwise the stored fraction scaled to percent |
| PosManager.SalesManager.SetDiscount | cbpos/mod/sales/controllers/manager.py:176-182 | selection error without a ticket; otherwise stores value/100 as the only changed column of the ticket, and the getter returns the value set |
| PosManager.SalesManager.Customer | cbpos/mod/sales/controllers/manager.py:187-192 | the selected ticket's customer, or none |
| PosManager.SalesManager.SetCustomer | cbpos/mod/sales/controllers/manager.py:194-202 | selection error without a ticket; otherwise a customer is stored with its discount, and clearing stores no customer and discount 0; the other columns of the ticket are unchanged |
| ModTicketLine.Step | cbmod/sales/models/ticketline.py:39-82 | only the product setter clears `is_edited`, and it always does; the product changes only through it; the price changes only through the price setter |
| ModTicketLine.EditedStaysEdited | cbmod/sales/models/ticketline.py:76-82 | an edited line stays edited through any sequence of assignments that does not assign the product |
| ModTicketLine.RunKeepsProductName | cbmod/sales/models/ticketline.py:39-60 | every assignment sequence keeps "an unedited, linked line shows its product's name" |
| ModTicketLine.ProductLeavesPriceAlone | cbmod/sales/models/ticketline.py:44-50 | linking a product leaves the line unedited at its old price, even one that differs from the product's price |
| ModTicketLine.TicketLine.constructor | cbmod/sales/models/ticketline.py:14-22 | a new line has the column defaults |
| ModTicketLine.TicketLine.SetProduct | cbmod/sales/models/ticketline.py:39-50 | None clears the link and the flag and keeps the description; a product sets the description to its name, links it and clears the flag; the price is never set |
| ModTicketLine.TicketLine.SetDescription | cbmod/sales/models/ticketline.py:56-60 | the value is stored; the flag becomes true exactly when it was true, or the line is linked and the value differs from the product's name |
| ModTicketLine.TicketLine.SetSellPrice | cbmod/sales/models/ticketline.py:66-70 | the value is stored; the flag becomes true exactly when it was true, or the line is linked and the value differs from the product's selling price |
| ModTicketLine.TicketLine.SetIsEdited | cbmod/sales/models/ticketline.py:76-82 | true is stored and false is ignored |
| ModTicketLine.TicketLine.Apply | cbmod/sales/controllers/manager.py:96 | `update(**data)` assigns the attributes in turn, each through its setter |
| ModTicketLine.TicketLine.Subtotal | cbmod/sales/models/ticketline.py:95-104 | subtotal is 0 when amount or price is 0 and non-negative for non-negative amount and price |
| ModTicketLine.TicketLine.Total | cbmod/sales/models/ticketline.py:84-93 | taxes are added before the discount: discount 0 gives taxes plus subtotal; taxes 0 and discount 0 give the subtotal; discount 100 gives 0; a discount in [0,100] keeps the total between 0 and taxes plus subtotal |
| ModManager.SumSubtotal | cbmod/sales/controllers/manager.py:58-63 | the sum of the line subtotals; no lines sum to 0 |
| ModManager.SumTaxes | cbmod/sales/controllers/manager.py:65-70 | the sum of the line taxes; no lines sum to 0 |
| ModManager.SumTotal | cbmod/sales/controllers/manager.py:72-77 | the sum of the line totals; no lines sum to 0 |
| ModManager.Ticket.Closed | cbmod/sales/controllers/manager.py:56 | `closed` holds exactly when the close stamp is set |
| ModManager.Without | cbmod/sales/controllers/manager.py:104 | deleting a line never makes the ticket longer |
| ModManager.WithoutMembers | cbmod/sales/controllers/manager.py:104 | after a delete the line is gone, every other line remains, and no line is added |
| ModManager.WithoutOnce | cbmod/sales/controllers/manager.py:119-120 | deleting a line the ticket holds once removes exactly one line and exactly its subtotal |
| ModManager.WithoutAbsent | cbmod/sales/controllers/manager.py:104 | deleting a line the ticket does not hold changes nothing |
| ModManager.Ticket.Subtotal | cbmod/sales/controllers/manager.py:58-63 | a ticket with no lines has subtotal 0 |
| ModManager.Ticket.Taxes | cbmod/sales/controllers/manager.py:65-70 | a ticket with no lines has taxes 0 |
| ModManager.Ticket.Total | cbmod/sales/controllers/manager.py:72-77 | a ticket with no lines totals 0 |
| ModManager.PaymentMethods | cbmod/sales/controllers/manager.py:225-228 | exactly cash, cheque, card, voucher, free and debt, each once |
| ModManager.SalesManager.UpdateTaxes | cbmod/sales/controllers/manager.py:133-134 | one more totals-changed signal |
| ModManager.SalesManager.SelectTicket | cbmod/sales/controllers/manager.py:30-33 | selects the ticket (or none) and signals |
| ModManager.SalesManager.NewTicket | cbmod/sales/controllers/manager.py:35-40 | a stored ticket with no lines, discount 0 and the default currency, not closed; the selection does not change |
| ModManager.SalesManager.CancelTicket | cbmod/sales/controllers/manager.py:42-46 | selection error and no change without a ticket; otherwise the ticket is deleted and the selection cleared |
| ModManager.SalesManager.CloseTicket | cbmod/sales/controllers/manager.py:48-52 | selection error without a ticket; otherwise the payment method, the paid flag and the close stamp are recorded, and the lines and other columns of the ticket are unchanged |
| ModManager.SalesManager.ListTickets | cbmod/sales/controllers/manager.py:54-56 | exactly the stored tickets that are not closed |
| ModManager.SalesManager.Subtotal | cbmod/sales/controllers/manager.py:58-63 | 0 without a ticket, else the sum of the ticket's line subtotals |
| ModManager.SalesManager.Taxes | cbmod/sales/controllers/manager.py:65-70 | 0 without a ticket, else the sum of the ticket's line taxes |
| ModManager.SalesManager.Total | cbmod/sales/controllers/manager.py:72-77 | 0 without a ticket, else the sum of the ticket's line totals |
| ModManager.SalesManager.AddTicketline | cbmod/sales/controllers/manager.py:81-90 | selection error without a ticket; otherwise a fresh line carrying the default columns after `data` has been assigned through the setters |
| ModManager.SalesManager.EditTicketline | cbmod/sales/controllers/manager.py:92-98 | selection error and an untouched line without a ticket; otherwise `data` is assigned through the setters |
| ModManager.SalesManager.RemoveTicketline | cbmod/sales/controllers/manager.py:100-106 | selection error without a ticket; otherwise the line leaves the selected ticket and its columns are unchanged |
| ModManager.SalesManager.ShortOfStock | cbmod/sales/controllers/manager.py:115-116 | the line's product exists, tracks stock and has less than the requested amount |
| ModManager.SalesManager.SetTicketlineAmount | cbmod/sales/controllers/manager.py:108-122 | the same guard, stock check and force rule as the first generation; an amount of 0 or less removes the line from the selected ticket; the ticket's columns never change; a stored amount changes nothing else on the line; deleting a line held once removes one line and its subtotal |
| ModManager.SalesManager.AddProduct | cbmod/sales/controllers/manager.py:124-131 | selection error without a ticket; otherwise a signal |
| ModManager.SalesManager.Currency | cbmod/sales/controllers/manager.py:142-150 | the override first, then the selected ticket's currency, then the default |
| ModManager.SalesManager.SetCurrency | cbmod/sales/controllers/manager.py:152-158 | only the override changes, None standing for the default; the getter then returns it |
| ModManager.SalesManager.CurrencyDisplay | cbmod/sales/controllers/manager.py:160-173 | shown in `dst` or the current currency; unconverted when the source equals the target or when there is neither a ticket nor `src`; otherwise converted from `src` or the ticket's currency; without an override, the ticket's own amounts show unconverted |
| ModManager.SalesManager.IsDiscountAllowed | cbmod/sales/controllers/manager.py:184-185 | a discount is always allowed |
| ModManager.SalesManager.Discount | cbmod/sales/controllers/manager.py:187-193 | 0 without a ticket, else the ticket's discount as stored |
| ModManager.SalesManager.SetDiscount | cbmod/sales/controllers/manager.py:195-201 | selection error without a ticket; otherwise the value is stored unscaled as the only changed column of the ticket, and the getter returns it |
| ModManager.SalesManager.Customer | cbmod/sales/controllers/manager.py:206-211 | the selected ticket's customer, or none |
| ModManager.SalesManager.SetCustomer | cbmod/sales/controllers/manager.py:213-221 | selection error without a ticket; otherwise a customer is stored with its discount, and clearing stores no customer and discount 0; the other columns of the ticket are unchanged |

## Behaviour kept as the code has it

- `new_ticket` does not select the new ticket (both generations, manager.py:35-40).
- Assigning `closed = True` has no guard against an already closed ticket, so a second close decrements the stock again (`PosTicket.Ticket.SetClosed`).
- The lookup of `addLineFromProduct` is not restricted to the ticket's lines (`PosTicket.AddLineCanLandOnOtherTicket`).
- In the first generation, an explicit `is_edited=False` on an edited line resets the flag (`PosTicketLine.EditedLineCanBeReset`). The line total has no tax term. The ticket discount is stored as a fraction.
- In the first generation, the currency setter reprices through `update`, so a converted price can mark a linked line edited (`PosManager.RepriceLine`).
- `add_ticketline` does not attach the new line to the selected ticket. In both generations the line joins a ticket only when `data` names one through its `ticket` key. The first-generation model keeps that key: without it the line is returned but never becomes a row. The second-generation model leaves the key out (see "## Left out").
- In the first generation, the customer setter stores the customer's `discount` unscaled (manager.py:200) in the column that the discount setter fills with percent divided by 100 (manager.py:182) and the getter multiplies by 100 (manager.py:174). A customer discount given in percent therefore reads back 100 times too large (`PosManager.SalesManager.SetCustomer`).

## Findings

| source | as written | input that shows it | evidently intended | confidence | as-written member | corrected member |
|---|---|---|---|---|---|---|
| cbpos/mod/sales/models/ticketline.py:61 | the second `subtotal` is decorated with `@total.expression`, so `tl.subtotal` on a line runs the total's getter and includes the line discount | one unit at 10.0 with discount 10: `subtotal` answers 9.0 where the docstring promises the net 10.0 | `@subtotal.expression`: the subtotal is amount times price, excluding discounts | not executed; the decorator name is plain in the text | PosTicketLine.SubtotalGetterAsWritten, shown by PosTicketLine.SubtotalDecoratorDiscrepancy | PosTicketLine.Subtotal, with PosTicketLine.SubtotalExcludesDiscount |
| cbpos/mod/sales/models/ticketline.py:50-63 | before SQLAlchemy 1.2 `expression` rewrites the `total` hybrid in place, so the same decorator replaces the SQL expression of `total` with `amount*sell_price` | the same line: the expression gives 10.0 where the total is 9.0, so `Ticket.total` (ticket.py:91) drops the line discount | the line total in SQL is the discounted one, as its own `@total.expression` at lines 50-52 says | not executed; depends on the SQLAlchemy version | PosTicketLine.TotalExpressionAsWritten, shown by PosTicketLine.SubtotalDecoratorDiscrepancy | PosTicketLine.Total, summed by PosTicket.Ticket.Total |

## Left out

- Persistence: SQLAlchemy sessions, queries, `commit` and transactions are not modelled. Each operation is one atomic state change.
- Money is exact `real`: the float columns, `float()` casts and rounding are not modelled.
- The desktop views, the dialogs, the module loader and the metadata seed data are not part of this model.
- `list_currencies` and `list_customers` are not modelled. They are a bare query and an empty method.
- The `user` column is not modelled; `new_ticket` also sets `user=user.current`.
- The `display` and `__repr__` helpers are not modelled.
- `update_ticket_currency` (cbmod manager.py:175-182) is not modelled. It refers to a name `c` that is never defined.
- Catalog.QuantityOut: `Product.quantity_out` is not part of this model. It is assumed to subtract the amount from `quantity`, with no floor.
- `common.Item.update` is not part of this model. It is assumed to assign every passed attribute in turn.
- ModTicketLine.TicketLine.Apply: `update(**data)` takes the attributes in the order given. Python 2 keyword dictionaries have no defined order, and the order matters when both `product` and `description` are passed.
- ModManager.Ticket.Total: the cbmod Ticket model is not part of this model. Subtotal and taxes are taken as the sums over the lines, and the total as the sum of the line totals, with no ticket-wide discount.
- ModManager.SalesManager.AddProduct: the effect of the cbmod `Ticket.add_product` is not modelled, only the guard and the signal.
- ModManager.SalesManager.CloseTicket: the cbmod `pay` and `closed` are not shown. They are modelled as recording the payment and the close stamp, with no stock decrement.
- ModManager.SalesManager.AddTicketline: a `ticket` key in `data` is not modelled, so the line joins no ticket.
- ModManager.SalesManager.SetTicketlineAmount: an amount of 0 or less is modelled as removing the line from the selected ticket. A line held by another ticket is kept, while `tl.delete()` deletes it wherever it is.
- ModManager.SalesManager.ShortOfStock: a second-generation line holds a copy of the product taken when it was linked, while the source follows a live relationship. A later change to the product's `quantity` is therefore not seen by the stock check.
- ModTicketLine.TicketLine.SetProduct: for the same reason, the description and price setters compare against the product's name and selling price as they were when it was linked, not as they are now.
- ModManager.SalesManager.RemoveTicketline: `tl.delete()` is modelled as removing the line from the selected ticket. A line held by another ticket is not found there.
- PosTicket.FindUnedited: the lookup query has no ORDER BY, so the database decides which matching line is "first"; the model takes session order.
- PosTicket.Ticket.Total: the line totals it sums are the discounted ones, as SQLAlchemy 1.2 and later evaluate `TicketLine.total`. Before 1.2 the decorator of the second `subtotal` overwrites that expression with the undiscounted one (see "## Findings"), and the ticket total then ignores line discounts.
- A new line whose `data` names a product but no ticket could also reach the session through the product's `ticketlines` relationship and then fail the NOT NULL `ticket_id` at the next flush. That path is not modelled: such a line is not added (`PosManager.SalesManager.AddTicketline`).
- PosManager.SalesManager.SetCurrency: the repricing loop visits the ticket's rows in session order; the relationship's own order is not modelled.
