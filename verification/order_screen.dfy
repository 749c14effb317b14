/**
 * The order history screen: the `addresses` documents, newest first as the
 * query returns them, narrowed to the signed-in user's own.
 */
module OrderHistory {
  import opened Wrappers
  import opened Platform
  import Catalog
  import Checkout

  /** A fetched `addresses` document: `{id: doc.id, ...doc.data()}`, with its server timestamp. */
  datatype OrderDoc = OrderDoc(id: string, createdAt: int, fields: Checkout.OrderRecord)

  /** Newest first: what `orderBy('createdAt', 'desc')` returns. */
  ghost predicate NewestFirst(s: seq<OrderDoc>) {
    forall i, j :: 0 <= i < j < |s| ==> s[i].createdAt >= s[j].createdAt
  }

  /** `a` is `b` with some elements left out, the rest in their original order. */
  ghost predicate IsSubsequence<T>(a: seq<T>, b: seq<T>)
    decreases |b|
  {
    if a == [] then true
    else if b == [] then false
    else
      (a[|a| - 1] == b[|b| - 1] && IsSubsequence(a[..|a| - 1], b[..|b| - 1]))
      || IsSubsequence(a, b[..|b| - 1])
  }

  /** `orderList.filter(item => item.userId === uid)`. */
  function OwnOrders(orderList: seq<OrderDoc>, uid: string): (r: seq<OrderDoc>)
    ensures |r| <= |orderList|
    ensures forall i :: 0 <= i < |r| ==> r[i].fields.userId == uid
    ensures forall d :: d in r ==> d in orderList
  {
    if orderList == [] then []
    else
      var n := |orderList| - 1;
      OwnOrders(orderList[..n], uid) + (if orderList[n].fields.userId == uid then [orderList[n]] else [])
  }

  /** The filter is complete: every fetched order of the user is shown. */
  lemma {:induction false} OwnOrdersComplete(orderList: seq<OrderDoc>, uid: string)
    ensures forall i :: 0 <= i < |orderList| && orderList[i].fields.userId == uid ==>
      orderList[i] in OwnOrders(orderList, uid)
  {
    if orderList != [] {
      var n := |orderList| - 1;
      OwnOrdersComplete(orderList[..n], uid);
      forall i | 0 <= i < n && orderList[i].fields.userId == uid
        ensures orderList[i] in OwnOrders(orderList, uid)
      {
        assert orderList[..n][i] == orderList[i];
      }
    }
  }

  /** The filter keeps the fetched order: the result is the list with the other users' orders left out. */
  lemma {:induction false} OwnOrdersKeepOrder(orderList: seq<OrderDoc>, uid: string)
    ensures IsSubsequence(OwnOrders(orderList, uid), orderList)
  {
    if orderList != [] {
      var n := |orderList| - 1;
      var r, r' := OwnOrders(orderList, uid), OwnOrders(orderList[..n], uid);
      OwnOrdersKeepOrder(orderList[..n], uid);
      if orderList[n].fields.userId == uid {
        assert r[..|r| - 1] == r';
      } else {
        assert r == r';
        assert IsSubsequence(r, orderList[..n]);
      }
    }
  }

  /** A newest-first list stays newest first once filtered. */
  lemma {:induction false} OwnOrdersNewestFirst(orderList: seq<OrderDoc>, uid: string)
    requires NewestFirst(orderList)
    ensures NewestFirst(OwnOrders(orderList, uid))
  {
    if orderList != [] {
      var n := |orderList| - 1;
      assert NewestFirst(orderList[..n]);
      OwnOrdersNewestFirst(orderList[..n], uid);
      var r, r' := OwnOrders(orderList, uid), OwnOrders(orderList[..n], uid);
      if orderList[n].fields.userId == uid {
        forall i, j | 0 <= i < j < |r|
          ensures r[i].createdAt >= r[j].createdAt
        {
          if j == |r| - 1 {
            assert r[i] in r';
            var k :| 0 <= k < n && orderList[..n][k] == r[i];
          }
        }
      }
    }
  }

  /** Orders written by another user never show. */
  lemma {:induction false} OthersOrdersHidden(orderList: seq<OrderDoc>, uid: string)
    requires forall i :: 0 <= i < |orderList| ==> orderList[i].fields.userId != uid
    ensures OwnOrders(orderList, uid) == []
  {
    if orderList != [] {
      OthersOrdersHidden(orderList[..|orderList| - 1], uid);
    }
  }

  /** The screen's state. */
  class OrderHistoryScreen {
    var orders: seq<OrderDoc>
    var loading: bool
    /** The last alert shown, if any. */
    var alert: Option<Alert>

    constructor ()
      ensures orders == [] && loading && alert == None
    {
      orders := [];
      loading := true;
      alert := None;
    }

    /**
     * Rendering the screen with `user` signed in (or not). Without a user it
     * alerts and renders nothing, and the fetch never runs; otherwise
     * `fetchOrders` runs on `snapshot`, the query's result (`None` when the
     * query throws).
     */
    method Open(user: Option<string>, snapshot: Option<seq<OrderDoc>>) returns (rendered: bool)
      modifies this
      ensures rendered == user.Some?
      ensures user.None? ==>
        orders == old(orders) && loading == old(loading) && alert == Some(ErrorAlert("User not authenticated"))
      ensures user.Some? ==>
        && !loading
        && orders == (if snapshot.Some? then OwnOrders(snapshot.value, user.value) else old(orders))
        && alert == old(alert)
    {
      if user.None? {
        alert := Some(ErrorAlert("User not authenticated"));
        return false;
      }
      FetchOrders(user.value, snapshot);
      return true;
    }

    /** `fetchOrders`: the user's orders on success, the list left as it was on a failed query, and loading over either way. */
    method FetchOrders(uid: string, snapshot: Option<seq<OrderDoc>>)
      modifies this`orders, this`loading
      ensures !loading
      ensures orders == if snapshot.Some? then OwnOrders(snapshot.value, uid) else old(orders)
    {
      if snapshot.Some? {
        var filterData := OwnOrders(snapshot.value, uid);
        orders := filterData;
      }
      loading := false;
    }
  }

  /** A list holding only the user's own orders is shown whole. */
  lemma {:induction false} OwnOrdersKeepAllOfOneUser(orderList: seq<OrderDoc>, uid: string)
    requires forall i :: 0 <= i < |orderList| ==> orderList[i].fields.userId == uid
    ensures OwnOrders(orderList, uid) == orderList
  {
    if orderList != [] {
      var n := |orderList| - 1;
      OwnOrdersKeepAllOfOneUser(orderList[..n], uid);
      assert orderList[..n] + [orderList[n]] == orderList;
    }
  }

  /**
   * Checking out as one user and reading the history as another shows none of
   * those records; reading as the same user shows them all.
   */
  lemma CheckoutVisibleOnlyToBuyer(
    docs: seq<OrderDoc>, buyer: string, viewer: string, a: Checkout.Address, items: seq<Catalog.OrderItem>)
    requires |docs| == |items|
    requires forall i :: 0 <= i < |docs| ==> docs[i].fields == Checkout.Records(buyer, a, items)[i]
    ensures viewer != buyer ==> OwnOrders(docs, viewer) == []
    ensures OwnOrders(docs, buyer) == docs
  {
    assert forall i :: 0 <= i < |docs| ==> docs[i].fields.userId == buyer;
    OwnOrdersKeepAllOfOneUser(docs, buyer);
    if viewer != buyer {
      OthersOrdersHidden(docs, viewer);
    }
  }
}
