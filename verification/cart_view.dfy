/** The cart drawer (`src/components/Cart.tsx`): what each line shows, the
    summary figures, the quantity buttons and the checkout gate. Services
    are paid by their deposit now and the rest after the service; products
    are paid in full. */
module CartView {
  import opened Common
  import opened Cart

  /** JavaScript truthiness of an optional amount: present and non-zero. */
  predicate TruthyAmount(a: Option<int>) {
    a.Some? && a.value != 0
  }

  /** The amount printed on a cart line: a service line with a deposit shows
      the deposit for its units, every other line its full price. */
  function ShownLineAmount(x: CartItem): (r: int)
    ensures x.kind == ServiceItem && TruthyAmount(x.lockingAmount) ==> r == LineLocking(x)
    ensures !(x.kind == ServiceItem && TruthyAmount(x.lockingAmount)) ==> r == LineTotal(x)
  {
    if x.kind == ServiceItem && TruthyAmount(x.lockingAmount) then x.lockingAmount.value * x.quantity
    else x.price * x.quantity
  }

  /** What one line contributes to "Total to Pay Now": its deposit for its
      units on a service line (nothing when it has no deposit), its full
      amount on a product line. */
  function PayNowLine(x: CartItem): int {
    if IsService(x) then LineLocking(x) else LineTotal(x)
  }

  /** "Total to Pay Now": service deposits plus products in full, which is
      each line's pay-now share summed over the cart. */
  function PayNow(items: Items): (r: int)
    ensures r == Sum(PayNowLine, items)
  {
    SumAdd(ServiceLocking, ProductAmount, PayNowLine, items);
    ServiceLockingTotal(items) + ProductTotal(items)
  }

  /** "Service balance ... due after service": what the service lines still
      owe, price less deposit per unit, summed over the cart. */
  function ServiceBalance(items: Items): (r: int)
    ensures r == Sum(ServiceLineBalance, items)
  {
    BalanceIsServiceRemainder(items);
    Subtotal(items) - ProductTotal(items) - ServiceLockingTotal(items)
  }

  function ServiceLineBalance(x: CartItem): int {
    if IsService(x) then (x.price - x.lockingAmount.GetOr(0)) * x.quantity else 0
  }

  function ServiceLinePrice(x: CartItem): int {
    if IsService(x) then LineTotal(x) else 0
  }

  function NegServiceLocking(x: CartItem): int {
    -ServiceLocking(x)
  }

  lemma LineBalanceSplits(x: CartItem)
    ensures ServiceLineBalance(x) == ServiceLinePrice(x) + NegServiceLocking(x)
  {
    var l := x.lockingAmount.GetOr(0);
    assert (x.price - l) * x.quantity == x.price * x.quantity - l * x.quantity;
  }

  /** The subtotal less the product total and the deposits is what the
      service lines still owe: price less deposit, per unit. */
  lemma BalanceIsServiceRemainder(items: Items)
    ensures Subtotal(items) - ProductTotal(items) - ServiceLockingTotal(items) == Sum(ServiceLineBalance, items)
  {
    SubtotalSplits(items);
    SumFilter(IsService, LineTotal, ServiceLinePrice, items);
    SumNegate(ServiceLocking, NegServiceLocking, items);
    forall i | 0 <= i < |items|
      ensures ServiceLineBalance(items[i]) == ServiceLinePrice(items[i]) + NegServiceLocking(items[i])
    {
      LineBalanceSplits(items[i]);
    }
    SumAdd(ServiceLinePrice, NegServiceLocking, ServiceLineBalance, items);
  }

  lemma {:induction false} SumNegate(f: CartItem -> int, g: CartItem -> int, s: Items)
    requires forall i :: 0 <= i < |s| ==> g(s[i]) == -f(s[i])
    ensures Sum(g, s) == -Sum(f, s)
    decreases |s|
  {
    if |s| > 0 {
      SumNegate(f, g, s[1..]);
    }
  }

  /** When every service line carries a deposit, the lines' printed amounts add up to "Total to Pay Now". */
  lemma PayNowIsSumOfLines(items: Items)
    requires forall i :: 0 <= i < |items| && IsService(items[i]) ==> TruthyAmount(items[i].lockingAmount)
    ensures Sum(ShownLineAmount, items) == PayNow(items)
  {
    SumCongruent(ShownLineAmount, PayNowLine, items);
  }

  /** The minus button of a product line asks for one unit less: from a
      single unit (or fewer) the line goes; otherwise the lines with that id
      take the displayed quantity minus one, and every other line and every
      other field stays as it was. */
  function PressMinus(items: Items, line: CartItem): (r: Items)
    ensures line.quantity <= 1 ==> r == RemoveItem(items, line.id) && !HasId(r, line.id)
    ensures line.quantity > 1 ==>
      && |r| == |items|
      && forall k :: 0 <= k < |r| ==>
           r[k] == items[k].(quantity := if items[k].id == line.id then line.quantity - 1 else items[k].quantity)
  {
    UpdateQuantity(items, line.id, line.quantity - 1)
  }

  /** Pressing minus on a line of a cart with unique ids takes one unit off
      the cart's count and that line's price off its subtotal, whether the
      line stays or goes. */
  lemma MinusRemovesOneUnit(items: Items, k: nat)
    requires UniqueIds(items)
    requires k < |items| && items[k].quantity >= 1
    ensures TotalItems(PressMinus(items, items[k])) == TotalItems(items) - 1
    ensures Subtotal(PressMinus(items, items[k])) == Subtotal(items) - items[k].price
  {
    if items[k].quantity == 1 {
      RemoveTotals(items, k);
    } else {
      var less := items[k].(quantity := -1);
      MinusIsMerge(items, k);
      MergeTotals(items, less, k);
    }
  }

  /** With unique ids and more than one unit on line `k`, minus merges one
      negative unit into that line. */
  lemma MinusIsMerge(items: Items, k: nat)
    requires UniqueIds(items)
    requires k < |items| && items[k].quantity > 1
    ensures PressMinus(items, items[k]) == Merge(items, items[k].(quantity := -1))
  {
    var line := items[k];
    var r := PressMinus(items, line);
    var m := Merge(items, line.(quantity := -1));
    forall i | 0 <= i < |items|
      ensures r[i] == m[i]
    {
      if items[i].id == line.id {
        assert i == k;
      }
    }
  }

  /** The plus button of a product line asks for one unit more: the lines
      with that id take the displayed quantity plus one, and every other line
      and every other field stays as it was. */
  function PressPlus(items: Items, line: CartItem): (r: Items)
    ensures line.quantity < 0 ==> r == RemoveItem(items, line.id)
    ensures line.quantity >= 0 ==>
      && |r| == |items|
      && forall k :: 0 <= k < |r| ==>
           && r[k] == items[k].(quantity := r[k].quantity)
           && (items[k].id == line.id ==> r[k].quantity == line.quantity + 1)
           && (items[k].id != line.id ==> r[k] == items[k])
  {
    UpdateQuantity(items, line.id, line.quantity + 1)
  }

  /** Pressing plus on a line of a cart with unique ids adds one unit to the
      cart's count and that line's price to its subtotal. */
  lemma PlusAddsOneUnit(items: Items, k: nat)
    requires UniqueIds(items)
    requires k < |items| && items[k].quantity >= 0
    ensures TotalItems(PressPlus(items, items[k])) == TotalItems(items) + 1
    ensures Subtotal(PressPlus(items, items[k])) == Subtotal(items) + items[k].price
  {
    var one := items[k].(quantity := 1);
    assert PressPlus(items, items[k]) == Merge(items, one);
    MergeTotals(items, one, k);
  }

  datatype CheckoutAction = GoToSignIn(returnTo: string) | ShowNotice(message: string)

  /** "Proceed to Checkout": a signed-out visitor is sent to sign in and
      brought back to the checkout page; nothing else happens. */
  function CheckoutClick(isAuthenticated: bool): (r: CheckoutAction)
    ensures r.GoToSignIn? <==> !isAuthenticated
    ensures r.GoToSignIn? ==> r.returnTo == "/checkout"
  {
    if !isAuthenticated then GoToSignIn("/checkout")
    else ShowNotice("Checkout functionality will be implemented with Razorpay integration")
  }

  /** Which optional summary lines appear. */
  datatype Summary = Summary(showLocking: bool, showProducts: bool, showBalance: bool, payNow: int)

  function SummaryOf(items: Items): (r: Summary)
    ensures r.showLocking <==> ServiceLockingTotal(items) > 0
    ensures r.showProducts <==> ProductTotal(items) > 0
    ensures r.showBalance == r.showLocking
    ensures r.payNow == PayNow(items)
  {
    var locking := ServiceLockingTotal(items);
    Summary(locking > 0, ProductTotal(items) > 0, locking > 0, PayNow(items))
  }

  /** A cart holding only products shows no deposit line and asks for the full subtotal now. */
  lemma ProductsOnly(items: Items)
    requires forall i :: 0 <= i < |items| ==> IsProduct(items[i])
    ensures !SummaryOf(items).showLocking
    ensures PayNow(items) == Subtotal(items)
  {
    FilterAll(IsProduct, items);
    SubtotalSplits(items);
    NoneKept(IsService, items);
  }

  lemma {:induction false} NoneKept(p: CartItem -> bool, s: Items)
    requires forall i :: 0 <= i < |s| ==> !p(s[i])
    ensures Filter(p, s) == []
    decreases |s|
  {
    if |s| > 0 {
      NoneKept(p, s[1..]);
    }
  }
}
