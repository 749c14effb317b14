/**
 * The address screen: the checkout step that turns the received item list into
 * one `addresses` document per item, once the buyer is signed in and has
 * filled in the six address fields.
 */
module Checkout {
  import opened Wrappers
  import opened Platform
  import opened JsString
  import opened Catalog
  import AddCart

  /** The six text inputs of the form, as typed. */
  datatype Address = Address(
    name: string,
    phone: string,
    street: string,
    city: string,
    state: string,
    postalCode: string)

  /** The validation gate: every field is non-empty once trimmed. */
  predicate Complete(a: Address) {
    Filled(a.name) && Filled(a.phone) && Filled(a.street) &&
    Filled(a.city) && Filled(a.state) && Filled(a.postalCode)
  }

  /** The form passes exactly when no field is empty or white space only. */
  lemma CompleteIffNoBlankField(a: Address)
    ensures Complete(a) <==>
      !Blank(a.name) && !Blank(a.phone) && !Blank(a.street) &&
      !Blank(a.city) && !Blank(a.state) && !Blank(a.postalCode)
  {
    TrimEmptyIffBlank(a.name);
    TrimEmptyIffBlank(a.phone);
    TrimEmptyIffBlank(a.street);
    TrimEmptyIffBlank(a.city);
    TrimEmptyIffBlank(a.state);
    TrimEmptyIffBlank(a.postalCode);
  }

  /** One document of the `addresses` collection (`validData`), less its server timestamp. */
  datatype OrderRecord = OrderRecord(
    userId: string,
    name: string,
    phone: string,
    street: string,
    city: string,
    state: string,
    postalCode: string,
    img: string,
    /** Written under the key `ProductName`. */
    productName: string,
    price: int,
    quantity: int)

  /** The address fields a record carries. */
  function AddressOf(r: OrderRecord): Address {
    Address(r.name, r.phone, r.street, r.city, r.state, r.postalCode)
  }

  /** JavaScript's `x || ''`: an absent or empty text becomes the empty text. */
  function TextOr(x: Option<string>): string {
    x.GetOr("")
  }

  /** `parseFloat(x) || 0`: a price that is absent or not a number (and 0 itself) becomes 0. */
  function PriceOr(x: Option<int>): int {
    x.GetOr(0)
  }

  /** JavaScript's `x || 1` on a quantity: absent and 0 are both falsy and become 1. */
  function QuantityOr(x: Option<int>): int {
    if x.Some? && x.value != 0 then x.value else 1
  }

  /** The record built for one item: the buyer, the address as typed, and the item's fields or their defaults. */
  function MakeRecord(uid: string, a: Address, item: OrderItem): (r: OrderRecord)
    ensures r.userId == uid && AddressOf(r) == a
    ensures r.quantity != 0
    ensures item.quantity == None ==> r.quantity == 1
    ensures item.quantity == Some(0) ==> r.quantity == 1
    ensures item.quantity.Some? && item.quantity.value != 0 ==> r.quantity == item.quantity.value
    ensures item.price.Some? ==> r.price == item.price.value
    ensures item.price == None ==> r.price == 0
    ensures item.productName.Some? ==> r.productName == item.productName.value
    ensures item.imageUrl.Some? ==> r.img == item.imageUrl.value
    ensures item.productName == None ==> r.productName == ""
    ensures item.imageUrl == None ==> r.img == ""
  {
    OrderRecord(
      uid, a.name, a.phone, a.street, a.city, a.state, a.postalCode,
      TextOr(item.imageUrl), TextOr(item.productName), PriceOr(item.price), QuantityOr(item.quantity))
  }

  /** `data.map(...)`: one record per item, in the items' order. */
  function Records(uid: string, a: Address, data: seq<OrderItem>): (r: seq<OrderRecord>)
    ensures |r| == |data|
    ensures forall i :: 0 <= i < |r| ==> r[i] == MakeRecord(uid, a, data[i])
    ensures forall i :: 0 <= i < |r| ==> r[i].userId == uid && AddressOf(r[i]) == a
  {
    seq(|data|, i requires 0 <= i < |data| => MakeRecord(uid, a, data[i]))
  }

  /** Every outcome is a success. */
  predicate AllSucceeded(outcomes: seq<bool>) {
    forall i :: 0 <= i < |outcomes| ==> outcomes[i]
  }

  /** The documents whose write succeeded, in dispatch order. */
  function Persisted<T>(docs: seq<T>, outcomes: seq<bool>): (r: seq<T>)
    requires |docs| == |outcomes|
    ensures |r| <= |docs|
    decreases |docs|
  {
    if docs == [] then []
    else
      var n := |docs| - 1;
      Persisted(docs[..n], outcomes[..n]) + (if outcomes[n] then [docs[n]] else [])
  }

  /** A write that succeeds stays written, whatever happens to the others: nothing is rolled back. */
  lemma {:induction false} SucceededWritesPersist<T>(docs: seq<T>, outcomes: seq<bool>)
    requires |docs| == |outcomes|
    ensures forall i :: 0 <= i < |docs| && outcomes[i] ==> docs[i] in Persisted(docs, outcomes)
  {
    if docs != [] {
      var n := |docs| - 1;
      SucceededWritesPersist(docs[..n], outcomes[..n]);
      forall i | 0 <= i < |docs| && outcomes[i]
        ensures docs[i] in Persisted(docs, outcomes)
      {
        if i < n {
          assert docs[..n][i] == docs[i] && outcomes[..n][i] == outcomes[i];
        }
      }
    }
  }

  /** Nothing but successful writes persists: each persisted document is one whose write succeeded. */
  lemma {:induction false} OnlySucceededWritesPersist<T>(docs: seq<T>, outcomes: seq<bool>)
    requires |docs| == |outcomes|
    ensures forall x :: x in Persisted(docs, outcomes) ==>
      exists i :: 0 <= i < |docs| && outcomes[i] && docs[i] == x
  {
    if docs != [] {
      var n := |docs| - 1;
      OnlySucceededWritesPersist(docs[..n], outcomes[..n]);
      forall x | x in Persisted(docs, outcomes)
        ensures exists i :: 0 <= i < |docs| && outcomes[i] && docs[i] == x
      {
        if x in Persisted(docs[..n], outcomes[..n]) {
          var i :| 0 <= i < n && outcomes[..n][i] && docs[..n][i] == x;
          assert outcomes[i] && docs[i] == x;
        } else {
          assert outcomes[n] && docs[n] == x;
        }
      }
    }
  }

  /** When every write succeeds, every record is written, once and in order. */
  lemma {:induction false} AllWritesPersistWhenAllSucceed<T>(docs: seq<T>, outcomes: seq<bool>)
    requires |docs| == |outcomes| && AllSucceeded(outcomes)
    ensures Persisted(docs, outcomes) == docs
  {
    if docs != [] {
      var n := |docs| - 1;
      AllWritesPersistWhenAllSucceed(docs[..n], outcomes[..n]);
      assert docs[..n] + [docs[n]] == docs;
    }
  }

  /** Extending the prefix by one write extends the persisted documents by that write, if it succeeds. */
  lemma PersistedStep<T>(docs: seq<T>, outcomes: seq<bool>, i: nat)
    requires |docs| == |outcomes| && i < |docs|
    ensures Persisted(docs[..i + 1], outcomes[..i + 1]) ==
      Persisted(docs[..i], outcomes[..i]) + (if outcomes[i] then [docs[i]] else [])
    ensures AllSucceeded(outcomes[..i + 1]) == (AllSucceeded(outcomes[..i]) && outcomes[i])
  {
    assert docs[..i + 1][..i] == docs[..i];
    assert outcomes[..i + 1][..i] == outcomes[..i];
  }

  /** The collection's documents after one more write of the batch, in terms of the persisted prefixes. */
  lemma WriteExtends<T>(start: seq<T>, docs: seq<T>, outcomes: seq<bool>, i: nat)
    requires |docs| == |outcomes| && i < |docs|
    ensures start + Persisted(docs[..i + 1], outcomes[..i + 1]) ==
      start + Persisted(docs[..i], outcomes[..i]) + (if outcomes[i] then [docs[i]] else [])
    ensures AllSucceeded(outcomes[..i + 1]) == (AllSucceeded(outcomes[..i]) && outcomes[i])
  {
    PersistedStep(docs, outcomes, i);
  }

  /** With no items (no route data), a valid submit writes nothing and the empty batch succeeds. */
  lemma NoItemsNoWrites(uid: string, a: Address)
    ensures Records(uid, a, []) == []
    ensures Persisted(Records(uid, a, []), []) == []
    ensures AllSucceeded([])
  {
  }

  /** "Buy Now" orders one unit at the product's price, or 0 when it has none. */
  lemma BuyNowOrdersOneUnit(uid: string, a: Address, p: Product)
    ensures Records(uid, a, [BuyNowItem(p)]) ==
      [OrderRecord(uid, a.name, a.phone, a.street, a.city, a.state, a.postalCode,
                   TextOr(p.imageUrl), TextOr(p.productName), p.price.GetOr(0), 1)]
  {
  }

  /** The checkout total: price times quantity summed over the records. */
  function OrderTotal(records: seq<OrderRecord>): int {
    if records == [] then 0
    else OrderTotal(records[..|records| - 1]) + records[|records| - 1].price * records[|records| - 1].quantity
  }

  /** Lines of at least one unit reach the records with their own price and quantity, so the totals agree. */
  lemma {:induction false} RecordsKeepLineTotals(uid: string, a: Address, lines: seq<AddCart.LineItem>)
    requires forall i :: 0 <= i < |lines| ==> lines[i].quantity >= 1
    ensures OrderTotal(Records(uid, a, seq(|lines|, i requires 0 <= i < |lines| => AddCart.WithoutId(lines[i]))))
            == AddCart.Total(lines)
  {
    var items := seq(|lines|, i requires 0 <= i < |lines| => AddCart.WithoutId(lines[i]));
    var recs := Records(uid, a, items);
    if lines != [] {
      var n := |lines| - 1;
      var items' := seq(n, i requires 0 <= i < n => AddCart.WithoutId(lines[..n][i]));
      assert items' == items[..n];
      RecordsKeepLineTotals(uid, a, lines[..n]);
      assert Records(uid, a, items') == recs[..n];
      assert recs[n].price == lines[n].price && recs[n].quantity == lines[n].quantity;
    }
  }

  /**
   * Checking a cart out writes, per line and in the cart's order, the line's
   * name, image, price and quantity (the `|| 1` default never applies, since a
   * cart line holds one unit or more), and the records add up to the cart's total.
   */
  lemma CartCheckoutKeepsLines(uid: string, a: Address, d: AddCart.Dict)
    requires AddCart.WellFormed(d)
    ensures var recs := Records(uid, a, AddCart.RemoveIdFromItems(d));
      && |recs| == |d.keys|
      && (forall i :: 0 <= i < |recs| ==>
            var line := d.entries[d.keys[i]];
            && recs[i].productName == TextOr(line.productName)
            && recs[i].img == TextOr(line.imageUrl)
            && recs[i].price == line.price
            && recs[i].quantity == line.quantity)
      && OrderTotal(recs) == AddCart.Total(AddCart.Values(d))
  {
    var lines := AddCart.Values(d);
    assert AddCart.RemoveIdFromItems(d) == seq(|lines|, i requires 0 <= i < |lines| => AddCart.WithoutId(lines[i]));
    RecordsKeepLineTotals(uid, a, lines);
  }

  /**
   * `Promise.all` over one `add` per record: every write is dispatched, the
   * ones that succeed stay written whatever happens to the others, and the
   * batch succeeds only if every write does.
   */
  method WriteAll(addresses: Collection<OrderRecord>, records: seq<OrderRecord>, outcomes: seq<bool>)
    returns (allOk: bool)
    requires |outcomes| == |records|
    modifies addresses
    ensures addresses.docs == old(addresses.docs) + Persisted(records, outcomes)
    ensures allOk == AllSucceeded(outcomes)
  {
    ghost var start := addresses.docs;
    allOk := true;
    var i := 0;
    assert records[..0] == [] && outcomes[..0] == [];
    while i < |records|
      invariant 0 <= i <= |records|
      invariant addresses.docs == start + Persisted(records[..i], outcomes[..i])
      invariant allOk == AllSucceeded(outcomes[..i])
    {
      addresses.Add(records[i], outcomes[i]);
      WriteExtends(start, records, outcomes, i);
      allOk := allOk && outcomes[i];
      i := i + 1;
    }
    assert records[..i] == records;
    assert outcomes[..i] == outcomes;
  }

  /** The address screen's state. */
  class AddressScreen {
    var address: Address
    var isModalVisible: bool
    /** The last alert shown, if any. */
    var alert: Option<Alert>
    /** `route.params?.data || []`. */
    const data: seq<OrderItem>

    constructor (routeData: Option<seq<OrderItem>>)
      ensures data == routeData.GetOr([])
      ensures address == Address("", "", "", "", "", "") && !isModalVisible && alert == None
    {
      data := routeData.GetOr([]);
      address := Address("", "", "", "", "", "");
      isModalVisible := false;
      alert := None;
    }

    /**
     * `handleSubmit`. `user` is the signed-in user's uid, `outcomes[i]` says
     * whether the write of the i-th record succeeds, and `failure` is the
     * message of the write error `Promise.all` reports first.
     */
    method HandleSubmit(user: Option<string>, addresses: Collection<OrderRecord>, outcomes: seq<bool>, failure: string)
      requires |outcomes| == |data|
      modifies this`isModalVisible, this`alert, addresses
      ensures user.None? ==>
        && alert == Some(ErrorAlert("User not authenticated"))
        && isModalVisible == old(isModalVisible)
        && addresses.docs == old(addresses.docs)
      ensures user.Some? && !Complete(address) ==>
        && alert == Some(ErrorAlert("Please fill out all fields"))
        && isModalVisible == old(isModalVisible)
        && addresses.docs == old(addresses.docs)
      ensures user.Some? && Complete(address) ==>
        && addresses.docs == old(addresses.docs) + Persisted(Records(user.value, address, data), outcomes)
        && isModalVisible == (AllSucceeded(outcomes) || old(isModalVisible))
        && alert == if AllSucceeded(outcomes) then old(alert)
                    else Some(ErrorAlert("Failed to submit data: " + failure))
    {
      if user.None? {
        alert := Some(ErrorAlert("User not authenticated"));
      } else {
        SubmitAs(user.value, addresses, outcomes, failure);
      }
    }

    /** `handleSubmit` past the sign-in check: the field check, then the writes. */
    method SubmitAs(uid: string, addresses: Collection<OrderRecord>, outcomes: seq<bool>, failure: string)
      requires |outcomes| == |data|
      modifies this`isModalVisible, this`alert, addresses
      ensures !Complete(old(address)) ==>
        && alert == Some(ErrorAlert("Please fill out all fields"))
        && isModalVisible == old(isModalVisible)
        && addresses.docs == old(addresses.docs)
      ensures Complete(old(address)) ==>
        && addresses.docs == old(addresses.docs) + Persisted(Records(uid, old(address), data), outcomes)
        && isModalVisible == (AllSucceeded(outcomes) || old(isModalVisible))
        && alert == if AllSucceeded(outcomes) then old(alert)
                    else Some(ErrorAlert("Failed to submit data: " + failure))
    {
      var form := address;
      if Complete(form) {
        var allOk := WriteAll(addresses, Records(uid, form, data), outcomes);
        ReportBatch(allOk, failure);
      } else {
        alert := Some(ErrorAlert("Please fill out all fields"));
      }
    }

    /** After `await Promise.all(...)`: the success modal, or the caught error. */
    method ReportBatch(allOk: bool, failure: string)
      modifies this`isModalVisible, this`alert
      ensures isModalVisible == (allOk || old(isModalVisible))
      ensures alert == if allOk then old(alert) else Some(ErrorAlert("Failed to submit data: " + failure))
    {
      if allOk {
        isModalVisible := true;
      } else {
        alert := Some(ErrorAlert("Failed to submit data: " + failure));
      }
    }
  }
}
