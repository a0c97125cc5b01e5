/** The shopping cart (`src/contexts/CartContext.tsx`): a list of service
    and product lines, the four operations that change it, and the four
    totals derived from it. Persistence to the browser's storage is left out. */
module Cart {
  import opened Common

  datatype ItemKind = ServiceItem | ProductItem

  datatype CartItem = CartItem(
    id: string,
    kind: ItemKind,
    serviceId: Option<string>,
    productId: Option<string>,
    name: string,
    packageId: Option<string>,
    packageName: Option<string>,
    price: int,
    quantity: int,
    image: string,
    date: Option<string>,
    time: Option<string>,
    lockingAmount: Option<int>)

  type Items = seq<CartItem>

  /** No two lines share an id. */
  predicate UniqueIds(items: Items) {
    forall i, j :: 0 <= i < j < |items| ==> items[i].id != items[j].id
  }

  predicate HasId(items: Items, id: string) {
    exists i :: 0 <= i < |items| && items[i].id == id
  }

  /** One line after merging `item` into it: its quantity grows when the ids match. */
  function Bump(line: CartItem, item: CartItem): CartItem {
    if line.id == item.id then line.(quantity := line.quantity + item.quantity) else line
  }

  /** `prev.map(i => i.id === item.id ? {...i, quantity: i.quantity + item.quantity} : i)`. */
  function Merge(items: Items, item: CartItem): (r: Items)
    ensures |r| == |items| && forall k :: 0 <= k < |r| ==> r[k] == Bump(items[k], item)
    decreases |items|
  {
    if items == [] then [] else [Bump(items[0], item)] + Merge(items[1..], item)
  }

  /** `addItem(item)`: a new id is appended; an existing id has its
      quantity increased and keeps every other field it had. */
  function AddItem(items: Items, item: CartItem): (r: Items)
    ensures !HasId(items, item.id) ==> r == items + [item]
    ensures HasId(items, item.id) ==> (
      && |r| == |items|
      && forall k :: 0 <= k < |items| ==>
           if items[k].id == item.id then r[k] == items[k].(quantity := items[k].quantity + item.quantity)
           else r[k] == items[k])
  {
    if HasId(items, item.id) then Merge(items, item) else items + [item]
  }

  /** `removeItem(id)`: every line with the id goes, the rest keep their order. */
  function RemoveItem(items: Items, id: string): (r: Items)
    ensures forall x :: x in r <==> x in items && x.id != id
    ensures !HasId(r, id)
    ensures forall x :: multiset(r)[x] == if x.id != id then multiset(items)[x] else 0
    ensures SubsequenceOf(r, items)
  {
    FilterIsSubsequence((x: CartItem) => x.id != id, items);
    Filter((x: CartItem) => x.id != id, items)
  }

  /** `item.id === id ? {...item, quantity} : item`. */
  function SetQuantity(line: CartItem, id: string, quantity: int): CartItem {
    if line.id == id then line.(quantity := quantity) else line
  }

  /** `updateQuantity(id, quantity)`: a quantity of zero or less removes the
      line; otherwise only the matching line's quantity changes. */
  function UpdateQuantity(items: Items, id: string, quantity: int): (r: Items)
    ensures quantity <= 0 ==> r == RemoveItem(items, id)
    ensures quantity > 0 ==> (
      && |r| == |items|
      && forall k :: 0 <= k < |items| ==>
           r[k].quantity == (if items[k].id == id then quantity else items[k].quantity)
           && r[k] == items[k].(quantity := r[k].quantity))
  {
    if quantity <= 0 then RemoveItem(items, id)
    else seq(|items|, k requires 0 <= k < |items| => SetQuantity(items[k], id, quantity))
  }

  /** `clearCart()`. */
  function ClearCart(items: Items): (r: Items)
    ensures TotalItems(r) == 0 && Subtotal(r) == 0
    ensures forall x :: x !in r
  {
    []
  }

  function Quantity(x: CartItem): int { x.quantity }
  function LineTotal(x: CartItem): int { x.price * x.quantity }
  function LineLocking(x: CartItem): int { x.lockingAmount.GetOr(0) * x.quantity }
  predicate IsService(x: CartItem) { x.kind == ServiceItem }
  predicate IsProduct(x: CartItem) { x.kind == ProductItem }

  /** A line's share of `serviceLockingTotal`: its deposit for its units on a service line, nothing otherwise. */
  function ServiceLocking(x: CartItem): int { if IsService(x) then LineLocking(x) else 0 }

  /** A line's share of `productTotal`: its full amount on a product line, nothing otherwise. */
  function ProductAmount(x: CartItem): int { if IsProduct(x) then LineTotal(x) else 0 }

  /** `totalItems`: the number of units in the cart. With no negative
      quantity it is never negative, and when every line holds at least one
      unit it is at least the number of lines. */
  function TotalItems(items: Items): (r: int)
    ensures items == [] ==> r == 0
    ensures (forall i :: 0 <= i < |items| ==> items[i].quantity >= 0) ==> r >= 0
    ensures (forall i :: 0 <= i < |items| ==> items[i].quantity >= 1) ==> r >= |items|
  {
    SumNonNegative(Quantity, items);
    SumAtLeastLength(Quantity, items);
    Sum(Quantity, items)
  }

  /** `subtotal`: every line at its full price; never negative when no line has a negative amount. */
  function Subtotal(items: Items): (r: int)
    ensures items == [] ==> r == 0
    ensures (forall i :: 0 <= i < |items| ==> LineTotal(items[i]) >= 0) ==> r >= 0
  {
    SumNonNegative(LineTotal, items);
    Sum(LineTotal, items)
  }

  /** Both `reduce`s accumulate from the left: the totals of a cart are the
      totals of all but its last line plus that line's units and amount. */
  lemma TotalsAccumulate(items: Items)
    requires items != []
    ensures TotalItems(items) == TotalItems(items[..|items| - 1]) + items[|items| - 1].quantity
    ensures Subtotal(items) == Subtotal(items[..|items| - 1]) + items[|items| - 1].price * items[|items| - 1].quantity
  {
    SumLast(Quantity, items);
    SumLast(LineTotal, items);
  }

  /** `serviceLockingTotal`: the deposits of the service lines (none when a
      line has no deposit). Filtering first and summing is the same as
      summing every line's service share. */
  function ServiceLockingTotal(items: Items): (r: int)
    ensures r == Sum(ServiceLocking, items)
  {
    SumFilter(IsService, LineLocking, ServiceLocking, items);
    Sum(LineLocking, Filter(IsService, items))
  }

  /** `productTotal`: the product lines at their full price; equally, the sum of every line's product share. */
  function ProductTotal(items: Items): (r: int)
    ensures r == Sum(ProductAmount, items)
  {
    SumFilter(IsProduct, LineTotal, ProductAmount, items);
    Sum(LineTotal, Filter(IsProduct, items))
  }

  /** The service lines at their full price. */
  function ServicePriceTotal(items: Items): int {
    Sum(LineTotal, Filter(IsService, items))
  }

  /** Every line is a service or a product, so the subtotal splits into the two. */
  lemma SubtotalSplits(items: Items)
    ensures Subtotal(items) == ProductTotal(items) + ServicePriceTotal(items)
  {
    var onlyProducts := (x: CartItem) => if IsProduct(x) then LineTotal(x) else 0;
    var onlyServices := (x: CartItem) => if IsService(x) then LineTotal(x) else 0;
    SumFilter(IsProduct, LineTotal, onlyProducts, items);
    SumFilter(IsService, LineTotal, onlyServices, items);
    SumAdd(onlyProducts, onlyServices, LineTotal, items);
  }

  /** Adding keeps the ids unique. */
  lemma AddKeepsIdsUnique(items: Items, item: CartItem)
    requires UniqueIds(items)
    ensures UniqueIds(AddItem(items, item))
  {
  }

  /** Adding a new line adds its units and its amount to the totals. */
  lemma AddNewTotals(items: Items, item: CartItem)
    requires !HasId(items, item.id)
    ensures TotalItems(AddItem(items, item)) == TotalItems(items) + item.quantity
    ensures Subtotal(AddItem(items, item)) == Subtotal(items) + item.price * item.quantity
  {
    SumAppend(Quantity, items, [item]);
    SumAppend(LineTotal, items, [item]);
  }

  /** Bumping a line adds the new units, at that line's price, when the ids match. */
  lemma BumpTotals(line: CartItem, item: CartItem)
    ensures Quantity(Bump(line, item)) == Quantity(line) + (if line.id == item.id then item.quantity else 0)
    ensures LineTotal(Bump(line, item)) == LineTotal(line) + (if line.id == item.id then line.price * item.quantity else 0)
  {
    if line.id == item.id {
      assert line.price * (line.quantity + item.quantity) == line.price * line.quantity + line.price * item.quantity;
    }
  }

  /** Merging into a cart whose only line with the id is line `k` adds the new
      units, charged at that line's price. */
  lemma {:induction false} MergeTotals(items: Items, item: CartItem, k: nat)
    requires k < |items| && items[k].id == item.id
    requires forall j :: 0 <= j < |items| && j != k ==> items[j].id != item.id
    ensures TotalItems(Merge(items, item)) == TotalItems(items) + item.quantity
    ensures Subtotal(Merge(items, item)) == Subtotal(items) + items[k].price * item.quantity
    decreases k
  {
    var r := Merge(items, item);
    assert r[1..] == Merge(items[1..], item);
    BumpTotals(items[0], item);
    if k == 0 {
      MergeAbsent(items[1..], item);
    } else {
      MergeTotals(items[1..], item, k - 1);
    }
  }

  /** With unique ids, adding to an existing line adds exactly the new units,
      charged at the price already in the cart. */
  lemma AddExistingTotals(items: Items, item: CartItem, k: nat)
    requires UniqueIds(items)
    requires k < |items| && items[k].id == item.id
    ensures TotalItems(AddItem(items, item)) == TotalItems(items) + item.quantity
    ensures Subtotal(AddItem(items, item)) == Subtotal(items) + items[k].price * item.quantity
  {
    assert HasId(items, item.id);
    MergeTotals(items, item, k);
  }

  /** Merging an id the cart does not hold changes nothing. */
  lemma MergeAbsent(items: Items, item: CartItem)
    requires forall j :: 0 <= j < |items| ==> items[j].id != item.id
    ensures Merge(items, item) == items
  {
  }

  /** Removing the only line with an id takes away exactly that line's units and amount. */
  lemma {:induction false} RemoveTotals(items: Items, k: nat)
    requires k < |items|
    requires forall j :: 0 <= j < |items| && j != k ==> items[j].id != items[k].id
    ensures TotalItems(RemoveItem(items, items[k].id)) == TotalItems(items) - items[k].quantity
    ensures Subtotal(RemoveItem(items, items[k].id)) == Subtotal(items) - LineTotal(items[k])
  {
    var id := items[k].id;
    var keptUnits := (x: CartItem) => if x.id != id then Quantity(x) else 0;
    var goneUnits := (x: CartItem) => if x.id != id then 0 else Quantity(x);
    SumFilter((x: CartItem) => x.id != id, Quantity, keptUnits, items);
    SumAdd(keptUnits, goneUnits, Quantity, items);
    SumSingle(goneUnits, items, k);
    var keptAmount := (x: CartItem) => if x.id != id then LineTotal(x) else 0;
    var goneAmount := (x: CartItem) => if x.id != id then 0 else LineTotal(x);
    SumFilter((x: CartItem) => x.id != id, LineTotal, keptAmount, items);
    SumAdd(keptAmount, goneAmount, LineTotal, items);
    SumSingle(goneAmount, items, k);
  }

  /** Adding a new line and removing it again gives back the cart. */
  lemma AddThenRemove(items: Items, item: CartItem)
    requires !HasId(items, item.id)
    ensures RemoveItem(AddItem(items, item), item.id) == items
  {
    FilterAppend((x: CartItem) => x.id != item.id, items, [item]);
    FilterAll((x: CartItem) => x.id != item.id, items);
  }

  /** Removing keeps the ids unique. */
  lemma RemoveKeepsIdsUnique(items: Items, id: string)
    requires UniqueIds(items)
    ensures UniqueIds(RemoveItem(items, id))
  {
    FilterKeepsIdsUnique((x: CartItem) => x.id != id, items);
  }

  /** Dropping lines never makes two remaining lines share an id. */
  lemma {:induction false} FilterKeepsIdsUnique(p: CartItem -> bool, items: Items)
    requires UniqueIds(items)
    ensures UniqueIds(Filter(p, items))
    decreases |items|
  {
    if |items| > 0 {
      FilterKeepsIdsUnique(p, items[1..]);
      var t := Filter(p, items[1..]);
      if p(items[0]) {
        forall j | 0 <= j < |t|
          ensures t[j].id != items[0].id
        {
          assert t[j] in items[1..];
          var k :| 0 <= k < |items[1..]| && items[1..][k] == t[j];
          assert items[k + 1] == t[j];
        }
        assert Filter(p, items) == [items[0]] + t;
        ConsKeepsIdsUnique(items[0], t);
      } else {
        assert Filter(p, items) == t;
      }
    }
  }

  /** A line whose id no other line has can go in front of a cart with unique ids. */
  lemma ConsKeepsIdsUnique(x: CartItem, t: Items)
    requires UniqueIds(t)
    requires forall j :: 0 <= j < |t| ==> t[j].id != x.id
    ensures UniqueIds([x] + t)
  {
    forall i, j | 0 <= i < j < |[x] + t|
      ensures ([x] + t)[i].id != ([x] + t)[j].id
    {
      if i > 0 {
        assert ([x] + t)[i] == t[i - 1];
      }
      assert ([x] + t)[j] == t[j - 1];
    }
  }

  /** Updating a quantity keeps the ids unique. */
  lemma UpdateKeepsIdsUnique(items: Items, id: string, quantity: int)
    requires UniqueIds(items)
    ensures UniqueIds(UpdateQuantity(items, id, quantity))
  {
    if quantity <= 0 {
      RemoveKeepsIdsUnique(items, id);
    }
  }
}
