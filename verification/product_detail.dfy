/** The product page (`src/pages/ProductDetail.tsx`): the quantity stepper
    and its typed input, the line total, the add-to-cart button and the
    related-products strip. The sign-in prompt in front of adding is left out. */
module ProductDetail {
  import opened Common
  import Cart
  import opened Products

  /** The stepper's quantity is between one and the stock. */
  predicate InRange(quantity: int, inventory: int) {
    1 <= quantity <= inventory
  }

  /** The plus button: one more, unless the stock is reached. */
  function Increment(quantity: int, inventory: int): (r: int)
    ensures quantity < inventory ==> r == quantity + 1
    ensures quantity >= inventory ==> r == quantity
  {
    if quantity < inventory then quantity + 1 else quantity
  }

  /** The minus button: one less, but never below one. */
  function Decrement(quantity: int): (r: int)
    ensures quantity > 1 ==> r == quantity - 1
    ensures quantity <= 1 ==> r == quantity
  {
    if quantity > 1 then quantity - 1 else quantity
  }

  /** The typed input: `parseInt` of the text, or None where it yields NaN;
      a value outside one to the stock is ignored. */
  function Typed(quantity: int, parsed: Option<int>, inventory: int): (r: int)
    ensures parsed.Some? && InRange(parsed.value, inventory) ==> r == parsed.value
    ensures !(parsed.Some? && InRange(parsed.value, inventory)) ==> r == quantity
  {
    if parsed.Some? && 1 <= parsed.value && parsed.value <= inventory then parsed.value else quantity
  }

  /** The stepper's three operations. */
  datatype QuantityOp = Plus | Minus | Type(parsed: Option<int>)

  function Apply(quantity: int, op: QuantityOp, inventory: int): int {
    match op
    case Plus => Increment(quantity, inventory)
    case Minus => Decrement(quantity)
    case Type(parsed) => Typed(quantity, parsed, inventory)
  }

  /** Any sequence of operations, from the initial quantity. */
  function ApplyAll(quantity: int, ops: seq<QuantityOp>, inventory: int): int
    decreases |ops|
  {
    if ops == [] then quantity else ApplyAll(Apply(quantity, ops[0], inventory), ops[1..], inventory)
  }

  /** Each operation keeps the quantity within one and the stock. */
  lemma ApplyKeepsRange(quantity: int, op: QuantityOp, inventory: int)
    requires InRange(quantity, inventory)
    ensures InRange(Apply(quantity, op, inventory), inventory)
  {
  }

  /** Starting from one, with something in stock, no sequence of operations leaves the range. */
  lemma {:induction false} StepperStaysInRange(ops: seq<QuantityOp>, inventory: int, quantity: int)
    requires InRange(quantity, inventory)
    ensures InRange(ApplyAll(quantity, ops, inventory), inventory)
    decreases |ops|
  {
    if ops != [] {
      ApplyKeepsRange(quantity, ops[0], inventory);
      StepperStaysInRange(ops[1..], inventory, Apply(quantity, ops[0], inventory));
    }
  }

  /** The initial quantity of one is in range exactly when something is in stock. */
  lemma InitialInRange(inventory: int)
    ensures InRange(1, inventory) <==> inventory >= 1
  {
  }

  /** The "Total" next to the stepper. */
  function LineTotal(p: Product, quantity: int): (r: int)
    ensures r == Cart.LineTotal(ProductLine(p, quantity, 0))
  {
    p.price * quantity
  }

  /** "Add to Cart" is disabled when nothing is in stock: for a non-negative
      stock, exactly when the stepper's initial quantity of one is out of range. */
  function AddDisabled(p: Product): (r: bool)
    ensures p.inventory >= 0 ==> (r <==> !InRange(1, p.inventory))
  {
    p.inventory == 0
  }

  /** Adding from this page puts the chosen quantity in the cart as a new
      line, so it adds the same amount as the total shown. */
  lemma AddToCartAddsTotal(items: Cart.Items, p: Product, quantity: int, now: nat)
    requires !Cart.HasId(items, LineId(p, now))
    ensures Cart.Subtotal(Cart.AddItem(items, ProductLine(p, quantity, now))) == Cart.Subtotal(items) + LineTotal(p, quantity)
    ensures Cart.TotalItems(Cart.AddItem(items, ProductLine(p, quantity, now))) == Cart.TotalItems(items) + quantity
  {
    Cart.AddNewTotals(items, ProductLine(p, quantity, now));
  }

  predicate Related(p: Product, q: Product) {
    q.category == p.category && q.id != p.id
  }

  /** The related-products strip: the first four other products of the same category, in catalogue order. */
  function RelatedProducts(products: seq<Product>, p: Product): (r: seq<Product>)
    ensures |r| <= 4
    ensures forall i :: 0 <= i < |r| ==> r[i].category == p.category && r[i].id != p.id
    ensures var all := Filter((q: Product) => Related(p, q), products);
      r == all[..if |all| < 4 then |all| else 4]
  {
    var all := Filter((q: Product) => Related(p, q), products);
    all[..if |all| < 4 then |all| else 4]
  }

  /** The strip shows four products whenever there are at least four candidates, and never the product itself. */
  lemma RelatedIsFull(products: seq<Product>, p: Product)
    ensures p !in RelatedProducts(products, p)
    ensures |Filter((q: Product) => Related(p, q), products)| >= 4 ==> |RelatedProducts(products, p)| == 4
    ensures forall q :: q in RelatedProducts(products, p) ==> q in products
  {
  }
}
