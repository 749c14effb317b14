/**
 * The cart screen: a dictionary from product id to line item, filled by the
 * product each navigation brings, adjusted by the +/- buttons, summed into the
 * total and flattened into the checkout list.
 *
 * The screen copies the dictionary but then writes the quantity on the item
 * object the old copy shares (`+= 1` in the add effect, the clamped assignment
 * in `updateQuantity`); here line items are values, so every update yields a
 * new line and the old dictionary is never touched.
 */
module AddCart {
  import opened Wrappers
  import opened Catalog

  /** One cart entry, `cartItems[id]`. */
  datatype LineItem = LineItem(
    id: Id,
    productName: Option<string>,
    price: int,
    quantity: int,
    imageUrl: Option<string>)

  /**
   * A JavaScript object used as a dictionary: its own keys in insertion order
   * (the order `Object.values` reports) and the entry under each key.
   */
  datatype Dict = Dict(keys: seq<Id>, entries: map<Id, LineItem>)

  /** `useState({})`. */
  const Empty := Dict([], map[])

  /**
   * Every key listed once, the listed keys exactly those of the map, each
   * entry filed under its own id and holding at least one unit.
   */
  ghost predicate WellFormed(d: Dict) {
    && (forall i, j :: 0 <= i < j < |d.keys| ==> d.keys[i] != d.keys[j])
    && (forall k :: k in d.entries <==> k in d.keys)
    && (forall k :: k in d.entries ==> d.entries[k].id == k && d.entries[k].quantity >= 1)
  }

  /** `Object.values(d)`: the entries in key insertion order. */
  function Values(d: Dict): (r: seq<LineItem>)
    requires WellFormed(d)
    ensures |r| == |d.keys|
    ensures forall i :: 0 <= i < |r| ==> r[i] == d.entries[d.keys[i]]
    ensures forall i :: 0 <= i < |r| ==> r[i].quantity >= 1
  {
    seq(|d.keys|, i requires 0 <= i < |d.keys| => d.entries[d.keys[i]])
  }

  /** The line a product starts with: one unit at `product.price || 0`. */
  function NewLine(p: Product): LineItem {
    LineItem(p.id, p.productName, p.price.GetOr(0), 1, p.imageUrl)
  }

  /**
   * The add effect on a dictionary: a product already in the cart gains one
   * unit, any other product becomes a new last entry.
   */
  function Added(d: Dict, p: Product): (r: Dict)
    requires WellFormed(d)
    ensures WellFormed(r)
    ensures r.entries.Keys == d.entries.Keys + {p.id}
    ensures forall k :: k in d.entries && k != p.id ==> r.entries[k] == d.entries[k]
    ensures p.id in d.entries ==>
      && r.keys == d.keys
      && r.entries[p.id].quantity == d.entries[p.id].quantity + 1
      && r.entries[p.id].productName == d.entries[p.id].productName
      && r.entries[p.id].price == d.entries[p.id].price
      && r.entries[p.id].imageUrl == d.entries[p.id].imageUrl
    ensures p.id !in d.entries ==>
      && r.keys == d.keys + [p.id]
      && r.entries[p.id] == LineItem(p.id, p.productName, p.price.GetOr(0), 1, p.imageUrl)
  {
    if p.id in d.entries then
      var line := d.entries[p.id];
      Dict(d.keys, d.entries[p.id := line.(quantity := line.quantity + 1)])
    else
      Dict(d.keys + [p.id], d.entries[p.id := NewLine(p)])
  }

  function Max(a: int, b: int): int {
    if a >= b then a else b
  }

  /**
   * `updateQuantity(id, change)` on a dictionary: the entry under `id`, if
   * any, moves by `change` but never below one unit.
   */
  function Updated(d: Dict, id: Id, change: int): (r: Dict)
    requires WellFormed(d)
    ensures WellFormed(r)
    ensures r.keys == d.keys && r.entries.Keys == d.entries.Keys
    ensures id !in d.entries ==> r == d
    ensures forall k :: k in d.entries && k != id ==> r.entries[k] == d.entries[k]
    ensures id in d.entries ==>
      && r.entries[id].quantity == Max(d.entries[id].quantity + change, 1)
      && r.entries[id].productName == d.entries[id].productName
      && r.entries[id].price == d.entries[id].price
      && r.entries[id].imageUrl == d.entries[id].imageUrl
  {
    if id in d.entries then
      var line := d.entries[id];
      Dict(d.keys, d.entries[id := line.(quantity := Max(line.quantity + change, 1))])
    else
      d
  }

  /** What the user can do to the cart: bring a product in, or press + or -. */
  datatype Action = AddProduct(product: Product) | ChangeQuantity(id: Id, change: int)

  function Apply(d: Dict, a: Action): (r: Dict)
    requires WellFormed(d)
    ensures WellFormed(r)
  {
    match a
    case AddProduct(p) => Added(d, p)
    case ChangeQuantity(id, change) => Updated(d, id, change)
  }

  /**
   * The cart after a session of actions. Whatever the actions, ids stay
   * unique and every quantity stays at one or more.
   */
  function Run(d: Dict, actions: seq<Action>): (r: Dict)
    requires WellFormed(d)
    ensures WellFormed(r)
    ensures forall k :: k in r.entries ==> r.entries[k].quantity >= 1
    decreases |actions|
  {
    if actions == [] then d
    else Apply(Run(d, actions[..|actions| - 1]), actions[|actions| - 1])
  }

  /** The same product added `n` times. */
  function AddTimes(d: Dict, p: Product, n: nat): (r: Dict)
    requires WellFormed(d)
    ensures WellFormed(r)
  {
    if n == 0 then d else Added(AddTimes(d, p, n - 1), p)
  }

  /** Adding one product `n` times to an empty cart gives one entry holding `n` units, never duplicates. */
  lemma {:induction false} RepeatedAddsMerge(p: Product, n: nat)
    requires n >= 1
    ensures AddTimes(Empty, p, n).keys == [p.id]
    ensures AddTimes(Empty, p, n).entries.Keys == {p.id}
    ensures AddTimes(Empty, p, n).entries[p.id] == NewLine(p).(quantity := n)
  {
    if n > 1 {
      var prev := AddTimes(Empty, p, n - 1);
      RepeatedAddsMerge(p, n - 1);
      assert p.id in prev.entries;
      assert AddTimes(Empty, p, n) == Added(prev, p);
    }
  }

  /** The same quantity change applied `n` times to one id. */
  function ChangeTimes(d: Dict, id: Id, change: int, n: nat): (r: Dict)
    requires WellFormed(d)
    ensures WellFormed(r)
  {
    if n == 0 then d else Updated(ChangeTimes(d, id, change, n - 1), id, change)
  }

  /** Pressing - `n` times takes `n` units off, but stops at one. */
  lemma {:induction false} RepeatedDecrementsStopAtOne(d: Dict, id: Id, n: nat)
    requires WellFormed(d) && id in d.entries
    ensures id in ChangeTimes(d, id, -1, n).entries
    ensures ChangeTimes(d, id, -1, n).entries[id].quantity == Max(d.entries[id].quantity - n, 1)
  {
    if n > 0 {
      var prev := ChangeTimes(d, id, -1, n - 1);
      RepeatedDecrementsStopAtOne(d, id, n - 1);
      assert ChangeTimes(d, id, -1, n) == Updated(prev, id, -1);
    }
  }

  /** The amount one line contributes to the total. */
  function Subtotal(line: LineItem): int {
    line.price * line.quantity
  }

  /** `totalPrice`: the `reduce` that adds up price times quantity from the left, starting at 0. */
  function Total(lines: seq<LineItem>): int {
    if lines == [] then 0 else Total(lines[..|lines| - 1]) + Subtotal(lines[|lines| - 1])
  }

  /** With no negative price the total is never negative. */
  lemma {:induction false} TotalNonNegative(lines: seq<LineItem>)
    requires forall i :: 0 <= i < |lines| ==> lines[i].price >= 0 && lines[i].quantity >= 0
    ensures Total(lines) >= 0
  {
    if lines != [] {
      TotalNonNegative(lines[..|lines| - 1]);
      var last := lines[|lines| - 1];
      assert Subtotal(last) >= 0;
    }
  }

  /** Appending a line adds its subtotal. */
  lemma TotalAppend(lines: seq<LineItem>, line: LineItem)
    ensures Total(lines + [line]) == Total(lines) + Subtotal(line)
  {
    assert (lines + [line])[..|lines|] == lines;
  }

  /** Replacing one line changes the total by the difference of the two subtotals. */
  lemma {:induction false} TotalReplace(lines: seq<LineItem>, i: nat, line: LineItem)
    requires i < |lines|
    ensures Total(lines[i := line]) == Total(lines) - Subtotal(lines[i]) + Subtotal(line)
  {
    var n := |lines|;
    if i == n - 1 {
      assert lines[i := line][..n - 1] == lines[..n - 1];
    } else {
      assert lines[i := line][..n - 1] == lines[..n - 1][i := line];
      TotalReplace(lines[..n - 1], i, line);
    }
  }

  /** Where a key sits among the dictionary's keys. */
  lemma IndexOfKey(d: Dict, k: Id) returns (i: nat)
    requires WellFormed(d) && k in d.entries
    ensures i < |d.keys| && d.keys[i] == k
  {
    i :| 0 <= i < |d.keys| && d.keys[i] == k;
  }

  /** Changing only the entry under `d.keys[i]` changes only the `i`-th value. */
  lemma ValuesAfterReplace(d: Dict, r: Dict, i: nat)
    requires WellFormed(d) && WellFormed(r) && r.keys == d.keys && i < |d.keys|
    requires forall k :: k in d.entries && k != d.keys[i] ==> r.entries[k] == d.entries[k]
    ensures Values(r) == Values(d)[i := r.entries[d.keys[i]]]
  {
    var left, right := Values(r), Values(d)[i := r.entries[d.keys[i]]];
    assert |left| == |right|;
    forall j | 0 <= j < |left|
      ensures left[j] == right[j]
    {
      if j != i {
        assert d.keys[j] != d.keys[i];
      }
    }
  }

  /** A new key appended to the dictionary appends its entry to the values. */
  lemma ValuesAfterInsert(d: Dict, r: Dict, k: Id)
    requires WellFormed(d) && WellFormed(r) && r.keys == d.keys + [k]
    requires forall k' :: k' in d.entries ==> r.entries[k'] == d.entries[k']
    ensures Values(r) == Values(d) + [r.entries[k]]
  {
    var left, right := Values(r), Values(d) + [r.entries[k]];
    assert |left| == |right|;
    forall j | 0 <= j < |left|
      ensures left[j] == right[j]
    {
    }
  }

  /** A line's subtotal moves by its price times the change in its quantity. */
  lemma SubtotalDelta(line: LineItem, q: int)
    ensures Subtotal(line.(quantity := q)) - Subtotal(line) == line.price * (q - line.quantity)
  {
  }

  /** One more unit adds one unit price. */
  lemma SubtotalOneMore(line: LineItem)
    ensures Subtotal(line.(quantity := line.quantity + 1)) == Subtotal(line) + line.price
  {
    assert line.price * (line.quantity + 1) == line.price * line.quantity + line.price;
  }

  /** Adding a product already in the cart raises the total by the price on its line. */
  lemma CartTotalAfterMerge(d: Dict, p: Product)
    requires WellFormed(d) && p.id in d.entries
    ensures Total(Values(Added(d, p))) == Total(Values(d)) + d.entries[p.id].price
  {
    var r := Added(d, p);
    var i := IndexOfKey(d, p.id);
    var line := d.entries[p.id];
    assert r.entries[p.id] == line.(quantity := line.quantity + 1);
    ValuesAfterReplace(d, r, i);
    TotalReplace(Values(d), i, r.entries[p.id]);
    SubtotalOneMore(line);
  }

  /** Adding a product not yet in the cart raises the total by `product.price || 0`. */
  lemma CartTotalAfterInsert(d: Dict, p: Product)
    requires WellFormed(d) && p.id !in d.entries
    ensures Total(Values(Added(d, p))) == Total(Values(d)) + p.price.GetOr(0)
  {
    var r := Added(d, p);
    ValuesAfterInsert(d, r, p.id);
    TotalAppend(Values(d), NewLine(p));
  }

  /**
   * Adding a product raises the total by one unit price: the price already in
   * the cart when the product is there, `product.price || 0` otherwise.
   */
  lemma CartTotalAfterAdd(d: Dict, p: Product)
    requires WellFormed(d)
    ensures Total(Values(Added(d, p))) ==
      Total(Values(d)) + (if p.id in d.entries then d.entries[p.id].price else p.price.GetOr(0))
  {
    if p.id in d.entries {
      CartTotalAfterMerge(d, p);
    } else {
      CartTotalAfterInsert(d, p);
    }
  }

  /** A quantity change moves the total by the unit price times the units actually gained or lost. */
  lemma CartTotalAfterChange(d: Dict, id: Id, change: int)
    requires WellFormed(d)
    ensures Total(Values(Updated(d, id, change))) ==
      Total(Values(d)) +
      (if id in d.entries
       then d.entries[id].price * (Max(d.entries[id].quantity + change, 1) - d.entries[id].quantity)
       else 0)
  {
    var r := Updated(d, id, change);
    if id in d.entries {
      var i := IndexOfKey(d, id);
      var line := d.entries[id];
      var q := Max(line.quantity + change, 1);
      ValuesAfterReplace(d, r, i);
      TotalReplace(Values(d), i, r.entries[id]);
      assert r.entries[id] == line.(quantity := q);
      SubtotalDelta(line, q);
    }
  }

  /** An empty cart totals 0. */
  lemma EmptyCartTotalIsZero()
    ensures Total(Values(Empty)) == 0
  {
  }

  /** With no negative price in the cart, the total shown is never negative. */
  lemma CartTotalNonNegative(d: Dict)
    requires WellFormed(d)
    requires forall k :: k in d.entries ==> d.entries[k].price >= 0
    ensures Total(Values(d)) >= 0
  {
    TotalNonNegative(Values(d));
  }

  /** A line as the checkout screen receives it: every field but the id. */
  function WithoutId(line: LineItem): OrderItem {
    OrderItem(line.productName, Some(line.price), Some(line.quantity), line.imageUrl)
  }

  /** `removeIdFromItems(cartItems)`: one order item per entry, in the cart's order, with the id dropped. */
  function RemoveIdFromItems(d: Dict): (r: seq<OrderItem>)
    requires WellFormed(d)
    ensures |r| == |d.keys|
    ensures forall i :: 0 <= i < |r| ==>
      && r[i].productName == d.entries[d.keys[i]].productName
      && r[i].price == Some(d.entries[d.keys[i]].price)
      && r[i].quantity == Some(d.entries[d.keys[i]].quantity)
      && r[i].imageUrl == d.entries[d.keys[i]].imageUrl
  {
    var lines := Values(d);
    seq(|lines|, i requires 0 <= i < |lines| => WithoutId(lines[i]))
  }

  /** The cart screen's state: `cartItems`. */
  class AddToCartScreen {
    var cartItems: Dict

    ghost predicate Valid()
      reads this
    {
      WellFormed(cartItems)
    }

    constructor ()
      ensures Valid() && cartItems == Empty
    {
      cartItems := Empty;
    }

    /** The effect on `route.params.data`: merge or insert the product, if one came. */
    method ReceiveProduct(data: Option<Product>)
      requires Valid()
      modifies this
      ensures Valid()
      ensures cartItems == if data.Some? then Added(old(cartItems), data.value) else old(cartItems)
    {
      if data.Some? {
        var product := data.value;
        var newItems := cartItems;
        if product.id in newItems.entries {
          var line := newItems.entries[product.id];
          newItems := newItems.(entries := newItems.entries[product.id := line.(quantity := line.quantity + 1)]);
        } else {
          newItems := Dict(newItems.keys + [product.id], newItems.entries[product.id := NewLine(product)]);
        }
        cartItems := newItems;
      }
    }

    /** The +/- buttons: `updateQuantity(id, change)`. */
    method UpdateQuantity(id: Id, change: int)
      requires Valid()
      modifies this
      ensures Valid()
      ensures cartItems == Updated(old(cartItems), id, change)
    {
      var newItems := cartItems;
      if id in newItems.entries {
        var line := newItems.entries[id];
        newItems := newItems.(entries := newItems.entries[id := line.(quantity := Max(line.quantity + change, 1))]);
      }
      cartItems := newItems;
    }
  }
}
