/**
 * The second-generation ticket line (cbmod/sales/models/ticketline.py).
 *
 * Edit detection moved from `update` into property setters: assigning a
 * description or a sell price that differs from the linked product's marks
 * the line edited, the `is_edited` setter refuses to clear the flag, and only
 * (re)assigning the product clears it. The total here adds the line's taxes
 * before the line discount applies.
 */
module ModTicketLine {
  import opened Catalog

  /** The columns of a line that its setters and totals touch. */
  datatype LineState = LineState(
    description: string,
    sellPrice: Money,
    amount: int,
    discount: int,
    taxes: Money,
    isEdited: bool,
    product: Option<Product>)

  /** One attribute assignment on a line, through its property setter where it has one. */
  datatype LineOp =
    | AssignProduct(p: Option<Product>)
    | AssignDescription(description: string)
    | AssignSellPrice(price: Money)
    | AssignIsEdited(edited: bool)
    | AssignAmount(amount: int)
    | AssignDiscount(discount: int)
    | AssignTaxes(taxes: Money)

  /** The line after one assignment. */
  function Step(s: LineState, op: LineOp): (r: LineState)
    // The flag only falls through the product setter, which always clears it.
    ensures s.isEdited && !op.AssignProduct? ==> r.isEdited
    ensures op.AssignProduct? ==> !r.isEdited && r.product == op.p
    ensures !op.AssignProduct? ==> r.product == s.product
    // The product setter never touches the price: it may still need converting.
    ensures r.sellPrice == if op.AssignSellPrice? then op.price else s.sellPrice
  {
    match op
    case AssignProduct(p) =>
      if p.None? then s.(product := None, isEdited := false)
      else s.(description := p.value.name, product := p, isEdited := false)
    case AssignDescription(v) =>
      var flips := s.product.Some? && !s.isEdited && v != s.product.value.name;
      s.(description := v, isEdited := if flips then true else s.isEdited)
    case AssignSellPrice(v) =>
      var flips := s.product.Some? && !s.isEdited && v != s.product.value.sellPrice;
      s.(sellPrice := v, isEdited := if flips then true else s.isEdited)
    case AssignIsEdited(v) =>
      if v then s.(isEdited := v) else s
    case AssignAmount(n) => s.(amount := n)
    case AssignDiscount(d) => s.(discount := d)
    case AssignTaxes(x) => s.(taxes := x)
  }

  /** The line after a sequence of assignments, in order. */
  function Run(s: LineState, ops: seq<LineOp>): LineState
  {
    if ops == [] then s else Step(Run(s, ops[..|ops| - 1]), ops[|ops| - 1])
  }

  /** Whether no assignment in `ops` goes through the product setter. */
  predicate NoProductAssignment(ops: seq<LineOp>)
  {
    forall k :: 0 <= k < |ops| ==> !ops[k].AssignProduct?
  }

  /** An edited line stays edited through any assignments that leave the product alone. */
  lemma {:induction false} EditedStaysEdited(s: LineState, ops: seq<LineOp>)
    requires s.isEdited && NoProductAssignment(ops)
    ensures Run(s, ops).isEdited
  {
    if ops != [] {
      EditedStaysEdited(s, ops[..|ops| - 1]);
    }
  }

  /**
   * A line linked to a product and not edited shows the product's name.
   * This is the invariant the description setter and the product setter keep.
   */
  predicate ShowsProductName(s: LineState)
  {
    s.product.Some? && !s.isEdited ==> s.description == s.product.value.name
  }

  /** Every assignment, and so every sequence of them, keeps `ShowsProductName`. */
  lemma {:induction false} RunKeepsProductName(s: LineState, ops: seq<LineOp>)
    requires ShowsProductName(s)
    ensures ShowsProductName(Run(s, ops))
  {
    if ops != [] {
      RunKeepsProductName(s, ops[..|ops| - 1]);
    }
  }

  /**
   * The price has no such invariant: linking a product leaves the line
   * unedited at whatever price it had, even one that differs from the
   * product's selling price.
   */
  lemma ProductLeavesPriceAlone(s: LineState, p: Product)
    requires s.sellPrice != p.sellPrice
    ensures var r := Step(s, AssignProduct(Some(p)));
      r.product == Some(p) && !r.isEdited && r.sellPrice != p.sellPrice
  {
  }

  /** A ticket line object; its private columns are the fields the setters write. */
  class TicketLine {
    var description: string
    var sellPrice: Money
    var amount: int
    var discount: int
    var taxes: Money
    var isEdited: bool
    var product: Option<Product>

    /** The line's columns as a value. */
    function State(): LineState
      reads this
    {
      LineState(description, sellPrice, amount, discount, taxes, isEdited, product)
    }

    /** `TicketLine()` with the column defaults. */
    constructor ()
      ensures State() == LineState("", 0.0, 1, 0, 0.0, false, None)
    {
      description := "";
      sellPrice := 0.0;
      amount := 1;
      discount := 0;
      taxes := 0.0;
      isEdited := false;
      product := None;
    }

    /**
     * The `product` setter: None clears the link; a product also copies its
     * name into the description. Both clear `is_edited`; neither sets the price.
     */
    method SetProduct(p: Option<Product>)
      modifies this
      ensures p.None? ==> State() == old(State()).(product := None, isEdited := false)
      ensures p.Some? ==> State() == old(State()).(description := p.value.name, product := p, isEdited := false)
      ensures State() == Step(old(State()), AssignProduct(p))
    {
      if p.None? {
        product := None;
        isEdited := false;
      } else {
        description := p.value.name;
        product := p;
        isEdited := false;
      }
    }

    /** The `description` setter: stores the value, and marks the line edited when it leaves the product's name. */
    method SetDescription(value: string)
      modifies this
      ensures State() == old(State()).(description := value, isEdited := isEdited)
      ensures isEdited == (old(isEdited) || (product.Some? && value != product.value.name))
      ensures State() == Step(old(State()), AssignDescription(value))
    {
      description := value;
      if product.Some? && !isEdited && value != product.value.name {
        isEdited := true;
      }
    }

    /** The `sell_price` setter: stores the value, and marks the line edited when it leaves the product's price. */
    method SetSellPrice(value: Money)
      modifies this
      ensures State() == old(State()).(sellPrice := value, isEdited := isEdited)
      ensures isEdited == (old(isEdited) || (product.Some? && value != product.value.sellPrice))
      ensures State() == Step(old(State()), AssignSellPrice(value))
    {
      sellPrice := value;
      if product.Some? && !isEdited && value != product.value.sellPrice {
        isEdited := true;
      }
    }

    /** The `is_edited` setter: true is stored, false is ignored. */
    method SetIsEdited(value: bool)
      modifies this
      ensures State() == old(State()).(isEdited := old(isEdited) || value)
      ensures State() == Step(old(State()), AssignIsEdited(value))
    {
      if value {
        isEdited := value;
      }
    }

    /**
     * `update(**kwargs)` as a sequence of attribute assignments, each through
     * its setter, in the order given.
     */
    method Apply(ops: seq<LineOp>)
      modifies this
      ensures State() == Run(old(State()), ops)
    {
      var i := 0;
      while i < |ops|
        invariant 0 <= i <= |ops|
        invariant State() == Run(old(State()), ops[..i])
      {
        assert ops[..i + 1][..i] == ops[..i];
        match ops[i] {
          case AssignProduct(p) => SetProduct(p);
          case AssignDescription(v) => SetDescription(v);
          case AssignSellPrice(v) => SetSellPrice(v);
          case AssignIsEdited(v) => SetIsEdited(v);
          case AssignAmount(n) => amount := n;
          case AssignDiscount(d) => discount := d;
          case AssignTaxes(x) => taxes := x;
        }
        i := i + 1;
      }
      assert ops[..i] == ops;
    }

    /** The line's net amount: amount times price, before discount and taxes. */
    function Subtotal(): (r: Money)
      reads this
      ensures amount == 0 || sellPrice == 0.0 ==> r == 0.0
      ensures amount >= 0 && sellPrice >= 0.0 ==> r >= 0.0
    {
      sellPrice * (amount as real)
    }

    /** The line's total: taxes plus amount times price, then less the line discount (in percent). */
    function Total(): (r: Money)
      reads this
      ensures discount == 0 ==> r == taxes + Subtotal()
      ensures discount == 0 && taxes == 0.0 ==> r == Subtotal()
      ensures discount == 100 ==> r == 0.0
      ensures 0 <= discount <= 100 && taxes + Subtotal() >= 0.0 ==> 0.0 <= r <= taxes + Subtotal()
    {
      Discounted(taxes + Subtotal(), discount)
    }
  }
}
