/** The "My Active Orders" card (`ActiveOrdersCard`): it fetches the
    user's orders for one ticker twice, once for each intended status,
    merges and sorts them newest first, prepends orders pushed in by its
    parent, removes orders by id, and removes an order optimistically once
    a cancellation resolves.  The service responses and the outcome of the
    cancel call are parameters. */
module ActiveOrders {
  import opened JsStrings
  import opened AdminTypes
  import opened Admin
  import opened Sequences

  /** `prev.filter(o => o.id !== orderId)`. */
  function WithoutId(s: seq<OrderDTO>, id: string): (r: seq<OrderDTO>)
    ensures |r| <= |s|
    ensures forall o :: o in r <==> o in s && o.id != id
    decreases |s|
  {
    if s == [] then []
    else (if s[0].id != id then [s[0]] else []) + WithoutId(s[1..], id)
  }

  /** Every order with another id stays, as often as it occurs (the
      fetched list may hold an order twice); every order with the id goes. */
  lemma {:induction false} WithoutIdCounts(s: seq<OrderDTO>, id: string)
    ensures forall o :: multiset(WithoutId(s, id))[o] == if o.id != id then multiset(s)[o] else 0
    decreases |s|
  {
    if s != [] {
      WithoutIdCounts(s[1..], id);
      assert s == [s[0]] + s[1..];
      assert WithoutId(s, id) == (if s[0].id != id then [s[0]] else []) + WithoutId(s[1..], id);
    }
  }

  /** Removing keeps the survivors in their original relative order. */
  lemma {:induction false} WithoutIdKeepsOrder(s: seq<OrderDTO>, id: string)
    ensures Subsequence(WithoutId(s, id), s)
    decreases |s|
  {
    if s != [] {
      WithoutIdKeepsOrder(s[1..], id);
      if s[0].id != id {
        assert WithoutId(s, id)[1..] == WithoutId(s[1..], id);
      } else {
        assert WithoutId(s, id) == WithoutId(s[1..], id);
        SubsequenceOfTail(WithoutId(s[1..], id), s);
      }
    }
  }

  /** Removing an id that no order has leaves the list as it was. */
  lemma {:induction false} WithoutAbsentId(s: seq<OrderDTO>, id: string)
    requires forall o :: o in s ==> o.id != id
    ensures WithoutId(s, id) == s
    decreases |s|
  {
    if s != [] {
      var t := s[1..];
      assert s[0] in s;
      assert forall o :: o in t ==> o in s;
      WithoutAbsentId(t, id);
      assert s == [s[0]] + t;
    }
  }

  /** Removing twice is removing once. */
  lemma WithoutIdIdempotent(s: seq<OrderDTO>, id: string)
    ensures WithoutId(WithoutId(s, id), id) == WithoutId(s, id)
  {
    WithoutAbsentId(WithoutId(s, id), id);
  }

  /** Removing an order that was just prepended removes it with every other
      order of the same id and leaves the rest as before. */
  lemma AddThenRemove(o: OrderDTO, s: seq<OrderDTO>)
    ensures WithoutId([o] + s, o.id) == WithoutId(s, o.id)
  {
    assert ([o] + s)[1..] == s;
  }

  /** Sorted by `created_at`, newest first. */
  predicate NewestFirst(s: seq<OrderDTO>) {
    forall i, j :: 0 <= i < j < |s| ==> s[i].createdAt >= s[j].createdAt
  }

  /** Inserts `x` in front of the first order that is not newer than it, so
      it lands ahead of the orders with its own timestamp. */
  function InsertNewest(x: OrderDTO, s: seq<OrderDTO>): (r: seq<OrderDTO>)
    ensures multiset(r) == multiset(s) + multiset{x}
    decreases |s|
  {
    if s == [] || s[0].createdAt <= x.createdAt then [x] + s
    else
      assert s == [s[0]] + s[1..];
      [s[0]] + InsertNewest(x, s[1..])
  }

  /** The merged list after `.sort((a, b) => time(b) - time(a))`: a stable
      sort, newest first. */
  function SortNewestFirst(s: seq<OrderDTO>): (r: seq<OrderDTO>)
    ensures multiset(r) == multiset(s)
    decreases |s|
  {
    if s == [] then []
    else
      assert s == [s[0]] + s[1..];
      InsertNewest(s[0], SortNewestFirst(s[1..]))
  }

  /** No order in `s` is newer than `c`. */
  predicate AllAtMost(s: seq<OrderDTO>, c: int) {
    forall k :: 0 <= k < |s| ==> s[k].createdAt <= c
  }

  lemma {:induction false} InsertNewestAtMost(x: OrderDTO, s: seq<OrderDTO>, c: int)
    requires x.createdAt <= c && AllAtMost(s, c)
    ensures AllAtMost(InsertNewest(x, s), c)
    decreases |s|
  {
    if s != [] && s[0].createdAt > x.createdAt {
      InsertNewestAtMost(x, s[1..], c);
      var r := InsertNewest(x, s);
      assert r == [s[0]] + InsertNewest(x, s[1..]);
      forall k | 0 <= k < |r| ensures r[k].createdAt <= c {
        if k > 0 {
          assert r[k] == InsertNewest(x, s[1..])[k - 1];
        }
      }
    }
  }

  lemma {:induction false} InsertNewestSorted(x: OrderDTO, s: seq<OrderDTO>)
    requires NewestFirst(s)
    ensures NewestFirst(InsertNewest(x, s))
    decreases |s|
  {
    if s != [] && s[0].createdAt > x.createdAt {
      var t := InsertNewest(x, s[1..]);
      assert NewestFirst(s[1..]) by {
        forall i, j | 0 <= i < j < |s[1..]| ensures s[1..][i].createdAt >= s[1..][j].createdAt {
          assert s[1..][i] == s[i + 1] && s[1..][j] == s[j + 1];
        }
      }
      InsertNewestSorted(x, s[1..]);
      assert AllAtMost(s[1..], s[0].createdAt) by {
        forall k | 0 <= k < |s[1..]| ensures s[1..][k].createdAt <= s[0].createdAt {
          assert s[1..][k] == s[k + 1];
        }
      }
      InsertNewestAtMost(x, s[1..], s[0].createdAt);
      var r := [s[0]] + t;
      forall i, j | 0 <= i < j < |r| ensures r[i].createdAt >= r[j].createdAt {
        assert r[j] == t[j - 1];
        if i > 0 {
          assert r[i] == t[i - 1];
        }
      }
    } else {
      var r := [x] + s;
      forall i, j | 0 <= i < j < |r| ensures r[i].createdAt >= r[j].createdAt {
        assert r[j] == s[j - 1];
        if i > 0 {
          assert r[i] == s[i - 1];
        }
      }
    }
  }

  lemma {:induction false} SortNewestFirstSorted(s: seq<OrderDTO>)
    ensures NewestFirst(SortNewestFirst(s))
    decreases |s|
  {
    if s != [] {
      SortNewestFirstSorted(s[1..]);
      InsertNewestSorted(s[0], SortNewestFirst(s[1..]));
    }
  }

  /** The orders created at time `t`, in list order. */
  function CreatedAt(s: seq<OrderDTO>, t: int): seq<OrderDTO>
    decreases |s|
  {
    if s == [] then [] else (if s[0].createdAt == t then [s[0]] else []) + CreatedAt(s[1..], t)
  }

  lemma {:induction false} InsertNewestStable(x: OrderDTO, s: seq<OrderDTO>, t: int)
    ensures CreatedAt(InsertNewest(x, s), t)
      == (if x.createdAt == t then [x] else []) + CreatedAt(s, t)
    decreases |s|
  {
    if s == [] || s[0].createdAt <= x.createdAt {
      assert ([x] + s)[1..] == s;
    } else {
      InsertNewestStable(x, s[1..], t);
      var r := [s[0]] + InsertNewest(x, s[1..]);
      assert r[1..] == InsertNewest(x, s[1..]);
      if s[0].createdAt == t {
        assert x.createdAt != t;
      }
    }
  }

  /** Stability: orders with equal timestamps keep their merged order. */
  lemma {:induction false} SortNewestFirstStable(s: seq<OrderDTO>, t: int)
    ensures CreatedAt(SortNewestFirst(s), t) == CreatedAt(s, t)
    decreases |s|
  {
    if s != [] {
      SortNewestFirstStable(s[1..], t);
      InsertNewestStable(s[0], SortNewestFirst(s[1..]), t);
    }
  }

  /** The filters of the two requests: the ticker, 50 per page, and the
      status each request means to select. */
  function ActiveFilters(ticker: string, status: string): AdminFilters {
    AdminFilters(None, Some(50), None, Some(ticker), None, None, Some(OrderStatusMember(status)))
  }

  /** The outcome of the two concurrent `getAccountOrders` calls. */
  datatype FetchOutcome = Fetched(pending: seq<OrderDTO>, partial: seq<OrderDTO>) | FetchFailed

  /** The outcome of `cancelOrder` on the socket. */
  datatype CancelOutcome = CancelResolved | CancelThrew

  class ActiveOrdersCard {
    const ticker: string
    var orders: seq<OrderDTO>
    var loading: bool
    var error: Option<string>
    var cancellingOrderId: Option<string>

    constructor(ticker: string)
      ensures this.ticker == ticker
      ensures orders == [] && loading && error == None && cancellingOrderId == None
    {
      this.ticker := ticker;
      orders := [];
      loading := true;
      error := None;
      cancellingOrderId := None;
    }

    /** `fetchActiveOrders` with the user's database id (falsy when absent
        or 0); returns the requests it sends.  Both requests are the same,
        because the status filter is never sent. */
    method FetchActiveOrders(dbId: Option<int>, outcome: FetchOutcome) returns (requests: seq<Request>)
      modifies this`orders, this`loading, this`error
      ensures !loading
      ensures !TruthyNumber(dbId) ==> requests == [] && orders == [] && error == old(error)
      ensures TruthyNumber(dbId) ==>
        |requests| == 2 && requests[0] == requests[1]
        && requests[0] == Request(AccountPath(dbId.value, "orders"),
                                  QueryOf(RangeKeys, ActiveFilters(ticker, "PENDING")))
      ensures TruthyNumber(dbId) && outcome.Fetched? ==>
        orders == SortNewestFirst(outcome.pending + outcome.partial) && error == None
      ensures TruthyNumber(dbId) && outcome.FetchFailed? ==>
        orders == old(orders) && error == Some("Failed to load active orders")
    {
      if !(dbId.Some? && dbId.value != 0) {
        orders := [];
        loading := false;
        requests := [];
        return;
      }
      loading := true;
      error := None;
      var pendingRequest := GetAccountOrders(dbId.value, Some(ActiveFilters(ticker, "PENDING")));
      var partialRequest := GetAccountOrders(dbId.value, Some(ActiveFilters(ticker, "PARTIAL")));
      StatusNeverSent(RangeKeys, ActiveFilters(ticker, "PENDING"), Some(OrderStatusMember("PARTIAL")));
      requests := [pendingRequest, partialRequest];
      match outcome {
        case Fetched(pending, partial) =>
          orders := SortNewestFirst(pending + partial);
        case FetchFailed =>
          error := Some("Failed to load active orders");
      }
      loading := false;
    }

    /** `addOrder`: the new order goes to index 0. */
    method AddOrder(o: OrderDTO)
      modifies this`orders
      ensures orders == [o] + old(orders)
      ensures orders[0] == o && orders[1..] == old(orders)
    {
      orders := [o] + orders;
    }

    /** `removeOrder`. */
    method RemoveOrder(id: string)
      modifies this`orders
      ensures orders == WithoutId(old(orders), id)
      ensures forall o :: multiset(orders)[o] == if o.id != id then multiset(old(orders))[o] else 0
    {
      WithoutIdCounts(orders, id);
      orders := WithoutId(orders, id);
    }

    /** `handleCancelOrder`: returns the id sent to `cancelOrder` and the id
        reported to `onCancelSuccess` (when the parent passed one). */
    method HandleCancelOrder(id: string, socketPresent: bool, outcome: CancelOutcome, hasCallback: bool)
      returns (requested: Option<string>, notified: Option<string>)
      modifies this`orders, this`cancellingOrderId
      ensures !socketPresent ==>
        requested == None && notified == None
        && orders == old(orders) && cancellingOrderId == old(cancellingOrderId)
      ensures socketPresent ==> requested == Some(id) && cancellingOrderId == None
      ensures socketPresent && outcome.CancelResolved? ==>
        orders == WithoutId(old(orders), id) && notified == (if hasCallback then Some(id) else None)
      ensures socketPresent && outcome.CancelThrew? ==> orders == old(orders) && notified == None
    {
      requested, notified := None, None;
      if !socketPresent {
        return;
      }
      cancellingOrderId := Some(id);
      requested := Some(id);
      if outcome.CancelResolved? {
        orders := WithoutId(orders, id);
        if hasCallback {
          notified := Some(id);
        }
      }
      cancellingOrderId := None;
    }
  }

  /** The socket the card is given is an `OrderBookConnection`, which
      has no `cancelOrder`: the call is attempted with the id but throws a
      TypeError before anything is sent, so a cancel from the card never
      removes the order and never notifies the parent. */
  method CancelThroughFeed(card: ActiveOrdersCard, id: string, hasCallback: bool)
    returns (attempted: Option<string>, notified: Option<string>)
    modifies card
    ensures card.orders == old(card.orders) && card.cancellingOrderId == None
    ensures attempted == Some(id) && notified == None
  {
    attempted, notified := card.HandleCancelOrder(id, true, CancelThrew, hasCallback);
  }

  /** A fetched list is sorted newest first and holds exactly the orders of
      both responses, each as often as the two responses hold it. */
  lemma FetchedListIsSortedMerge(pending: seq<OrderDTO>, partial: seq<OrderDTO>)
    ensures NewestFirst(SortNewestFirst(pending + partial))
    ensures multiset(SortNewestFirst(pending + partial)) == multiset(pending) + multiset(partial)
    ensures |SortNewestFirst(pending + partial)| == |pending| + |partial|
  {
    SortNewestFirstSorted(pending + partial);
    assert |multiset(SortNewestFirst(pending + partial))| == |multiset(pending + partial)|;
  }
}
