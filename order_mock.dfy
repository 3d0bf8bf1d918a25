/** The order-feed demo page (`OrderMock`): its `addOrder` callback appends
    an entry to the buy list when the entry's type is exactly "buy" and to
    the sell list otherwise; its `setOrders` callback ignores the snapshot.
    Composed with the feed connection, the page shows exactly the updates
    received after the first batch, in receipt order. */
module OrderMock {
  import opened OrderSubscription
  import opened Sequences

  datatype Book = Book(buyOrders: seq<OrderbookEntry>, sellOrders: seq<OrderbookEntry>)

  predicate IsBuy(o: OrderbookEntry) { o.kind == "buy" }

  /** The callbacks' effect on the two lists. */
  function ApplyCall(b: Book, c: UiCall): Book {
    match c
    case SetOrders(_) => b
    case AddOrder(o) =>
      if IsBuy(o) then Book(b.buyOrders + [o], b.sellOrders) else Book(b.buyOrders, b.sellOrders + [o])
  }

  function Apply(b: Book, calls: seq<UiCall>): Book
    decreases |calls|
  {
    if calls == [] then b else Apply(ApplyCall(b, calls[0]), calls[1..])
  }

  /** The entries of the `update` frames, in order. */
  function UpdatesIn(frames: seq<Frame>): seq<OrderbookEntry>
    decreases |frames|
  {
    if frames == [] then []
    else (if frames[0].Update? then [frames[0].order] else []) + UpdatesIn(frames[1..])
  }

  function Buys(s: seq<OrderbookEntry>): seq<OrderbookEntry>
    decreases |s|
  {
    if s == [] then [] else (if IsBuy(s[0]) then [s[0]] else []) + Buys(s[1..])
  }

  function Sells(s: seq<OrderbookEntry>): seq<OrderbookEntry>
    decreases |s|
  {
    if s == [] then [] else (if IsBuy(s[0]) then [] else [s[0]]) + Sells(s[1..])
  }

  /** Routing never loses or invents an entry: the two lists together hold
      exactly the routed entries. */
  lemma {:induction false} RoutingPartitions(s: seq<OrderbookEntry>)
    ensures multiset(Buys(s)) + multiset(Sells(s)) == multiset(s)
    ensures |Buys(s)| + |Sells(s)| == |s|
    decreases |s|
  {
    if s != [] {
      RoutingPartitions(s[1..]);
      assert s == [s[0]] + s[1..];
    }
  }

  lemma {:induction false} ApplyConcat(b: Book, c1: seq<UiCall>, c2: seq<UiCall>)
    ensures Apply(b, c1 + c2) == Apply(Apply(b, c1), c2)
    decreases |c1|
  {
    if c1 == [] {
      assert c1 + c2 == c2;
    } else {
      assert (c1 + c2)[1..] == c1[1..] + c2;
      ApplyConcat(ApplyCall(b, c1[0]), c1[1..], c2);
    }
  }

  lemma {:induction false} BuysConcat(s: seq<OrderbookEntry>, t: seq<OrderbookEntry>)
    ensures Buys(s + t) == Buys(s) + Buys(t)
    decreases |s|
  {
    if s == [] {
      assert s + t == t;
    } else {
      var head := if IsBuy(s[0]) then [s[0]] else [];
      assert (s + t)[0] == s[0];
      assert (s + t)[1..] == s[1..] + t;
      BuysConcat(s[1..], t);
      assert Buys(s + t) == head + Buys(s[1..] + t);
      assert Buys(s) == head + Buys(s[1..]);
      ConcatAssoc(head, Buys(s[1..]), Buys(t));
    }
  }

  lemma {:induction false} SellsConcat(s: seq<OrderbookEntry>, t: seq<OrderbookEntry>)
    ensures Sells(s + t) == Sells(s) + Sells(t)
    decreases |s|
  {
    if s == [] {
      assert s + t == t;
    } else {
      var head := if !IsBuy(s[0]) then [s[0]] else [];
      assert (s + t)[0] == s[0];
      assert (s + t)[1..] == s[1..] + t;
      SellsConcat(s[1..], t);
      assert Sells(s + t) == head + Sells(s[1..] + t);
      assert Sells(s) == head + Sells(s[1..]);
      ConcatAssoc(head, Sells(s[1..]), Sells(t));
    }
  }

  /** Once the feed is loaded, the page's lists grow by the routed updates. */
  lemma {:induction false} ApplyReadyCalls(b: Book, frames: seq<Frame>)
    ensures Apply(b, ReadyCalls(frames))
      == Book(b.buyOrders + Buys(UpdatesIn(frames)), b.sellOrders + Sells(UpdatesIn(frames)))
    decreases |frames|
  {
    if frames == [] {
      assert b.buyOrders + [] == b.buyOrders && b.sellOrders + [] == b.sellOrders;
    } else {
      var f := frames[0];
      var rest := frames[1..];
      var extraBuy := if f.Update? && IsBuy(f.order) then [f.order] else [];
      var extraSell := if f.Update? && !IsBuy(f.order) then [f.order] else [];
      assert ReadyCalls(frames) == Step(true, f).1 + ReadyCalls(rest);
      ApplyConcat(b, Step(true, f).1, ReadyCalls(rest));
      StepOnBook(b, true, f);
      var b' := Book(b.buyOrders + extraBuy, b.sellOrders + extraSell);
      ApplyReadyCalls(b', rest);
      RoutedCons(frames);
      ConcatAssoc(b.buyOrders, extraBuy, Buys(UpdatesIn(rest)));
      ConcatAssoc(b.sellOrders, extraSell, Sells(UpdatesIn(rest)));
    }
  }

  /** The routed updates of a non-empty list of frames, split at its head. */
  lemma RoutedCons(frames: seq<Frame>)
    requires frames != []
    ensures Buys(UpdatesIn(frames))
      == (if frames[0].Update? && IsBuy(frames[0].order) then [frames[0].order] else []) + Buys(UpdatesIn(frames[1..]))
    ensures Sells(UpdatesIn(frames))
      == (if frames[0].Update? && !IsBuy(frames[0].order) then [frames[0].order] else []) + Sells(UpdatesIn(frames[1..]))
  {
    var f := frames[0];
    var head := if f.Update? then [f.order] else [];
    assert UpdatesIn(frames) == head + UpdatesIn(frames[1..]);
    BuysConcat(head, UpdatesIn(frames[1..]));
    SellsConcat(head, UpdatesIn(frames[1..]));
    if f.Update? {
      RouteOne(f.order);
    }
  }

  lemma {:induction false} UpdatesInConcat(s: seq<Frame>, t: seq<Frame>)
    ensures UpdatesIn(s + t) == UpdatesIn(s) + UpdatesIn(t)
    decreases |s|
  {
    if s == [] {
      assert s + t == t;
    } else {
      var head := if s[0].Update? then [s[0].order] else [];
      assert (s + t)[0] == s[0];
      assert (s + t)[1..] == s[1..] + t;
      UpdatesInConcat(s[1..], t);
      assert UpdatesIn(s + t) == head + UpdatesIn(s[1..] + t);
      assert UpdatesIn(s) == head + UpdatesIn(s[1..]);
      ConcatAssoc(head, UpdatesIn(s[1..]), UpdatesIn(t));
    }
  }

  /** The page, fed through the connection from a fresh start, shows exactly
      the updates received from the first batch on: buys in the buy list,
      everything else in the sell list, each in receipt order. */
  lemma FeedShowsUpdatesAfterFirstBatch(frames: seq<Frame>)
    ensures Apply(Book([], []), Run(false, frames).1)
      == Book(Buys(UpdatesIn(FromFirstBatch(frames))), Sells(UpdatesIn(FromFirstBatch(frames))))
  {
    RunFromFirstBatch(frames);
    ApplyReadyCalls(Book([], []), FromFirstBatch(frames));
  }

  /** How the frames from the first batch on grow by one frame. */
  lemma {:induction false} FromFirstBatchSnoc(frames: seq<Frame>, f: Frame)
    ensures HasBatch(frames) ==> FromFirstBatch(frames + [f]) == FromFirstBatch(frames) + [f]
    ensures !HasBatch(frames) ==> FromFirstBatch(frames + [f]) == if f.Batch? then [f] else []
    decreases |frames|
  {
    if frames == [] {
      assert [] + [f] == [f];
    } else {
      assert (frames + [f])[1..] == frames[1..] + [f];
      if !frames[0].Batch? {
        FromFirstBatchSnoc(frames[1..], f);
        HasBatchTail(frames);
      } else {
        assert HasBatch(frames) by { assert frames[0].Batch?; }
      }
    }
  }

  lemma {:induction false} NoBatchNothingShown(frames: seq<Frame>)
    requires !HasBatch(frames)
    ensures FromFirstBatch(frames) == []
    decreases |frames|
  {
    if frames != [] {
      HasBatchTail(frames);
      NoBatchNothingShown(frames[1..]);
    }
  }

  /** The entry an update adds to the page, as a list of zero or one. */
  function Shown(loaded: bool, f: Frame): seq<OrderbookEntry> {
    if f.Update? && loaded then [f.order] else []
  }

  /** What the page shows grows by the new frame's entry exactly when it is
      an update arriving after a batch. */
  lemma ShownUpdatesSnoc(frames: seq<Frame>, f: Frame)
    ensures UpdatesIn(FromFirstBatch(frames + [f]))
      == UpdatesIn(FromFirstBatch(frames)) + Shown(HasBatch(frames), f)
  {
    FromFirstBatchSnoc(frames, f);
    UpdatesInOne(f);
    var r := FromFirstBatch(frames);
    if HasBatch(frames) {
      assert FromFirstBatch(frames + [f]) == r + [f];
      UpdatesInConcat(r, [f]);
    } else {
      NoBatchNothingShown(frames);
      assert FromFirstBatch(frames + [f]) == if f.Batch? then [f] else [];
    }
  }

  lemma UpdatesInOne(f: Frame)
    ensures UpdatesIn([f]) == if f.Update? then [f.order] else []
    ensures UpdatesIn([]) == []
  {
    assert UpdatesIn([f]) == (if f.Update? then [f.order] else []) + UpdatesIn([]);
  }

  /** The page's lists after one more frame. */
  lemma BookSnoc(frames: seq<Frame>, f: Frame)
    ensures Buys(UpdatesIn(FromFirstBatch(frames + [f])))
      == Buys(UpdatesIn(FromFirstBatch(frames))) + Buys(Shown(HasBatch(frames), f))
    ensures Sells(UpdatesIn(FromFirstBatch(frames + [f])))
      == Sells(UpdatesIn(FromFirstBatch(frames))) + Sells(Shown(HasBatch(frames), f))
  {
    ShownUpdatesSnoc(frames, f);
    BuysConcat(UpdatesIn(FromFirstBatch(frames)), Shown(HasBatch(frames), f));
    SellsConcat(UpdatesIn(FromFirstBatch(frames)), Shown(HasBatch(frames), f));
  }

  /** The page's lists after one more frame, in terms of the lists before. */
  lemma BookAfterFrame(frames: seq<Frame>, f: Frame)
    ensures Buys(UpdatesIn(FromFirstBatch(frames + [f])))
      == Buys(UpdatesIn(FromFirstBatch(frames)))
         + (if f.Update? && HasBatch(frames) && IsBuy(f.order) then [f.order] else [])
    ensures Sells(UpdatesIn(FromFirstBatch(frames + [f])))
      == Sells(UpdatesIn(FromFirstBatch(frames)))
         + (if f.Update? && HasBatch(frames) && !IsBuy(f.order) then [f.order] else [])
  {
    BookSnoc(frames, f);
    if f.Update? && HasBatch(frames) {
      RouteOne(f.order);
    }
  }

  lemma RouteOne(o: OrderbookEntry)
    ensures Buys([o]) == if IsBuy(o) then [o] else []
    ensures Sells([o]) == if IsBuy(o) then [] else [o]
  {
    assert Buys([o]) == (if IsBuy(o) then [o] else []) + Buys([]);
    assert Sells([o]) == (if IsBuy(o) then [] else [o]) + Sells([]);
  }

  lemma HasBatchSnoc(frames: seq<Frame>, f: Frame)
    ensures HasBatch(frames + [f]) <==> HasBatch(frames) || f.Batch?
  {
    if HasBatch(frames) {
      var i :| 0 <= i < |frames| && frames[i].Batch?;
      assert (frames + [f])[i] == frames[i];
    }
    if f.Batch? {
      assert (frames + [f])[|frames|] == f;
    }
    if HasBatch(frames + [f]) {
      var i :| 0 <= i < |frames + [f]| && (frames + [f])[i].Batch?;
      if i < |frames| { assert frames[i] == (frames + [f])[i]; }
    }
  }

  /** One frame's calls on any pair of lists: at most one list grows by the
      entry, and only for an update once the feed is loaded. */
  lemma StepOnBook(b: Book, loaded: bool, f: Frame)
    ensures Apply(b, Step(loaded, f).1)
      == Book(b.buyOrders + (if f.Update? && loaded && IsBuy(f.order) then [f.order] else []),
              b.sellOrders + (if f.Update? && loaded && !IsBuy(f.order) then [f.order] else []))
  {
    match f {
      case Batch(orders) =>
        assert Apply(b, [SetOrders(orders)]) == Apply(b, []);
      case Update(o) =>
        if loaded {
          assert Apply(b, [AddOrder(o)]) == Apply(ApplyCall(b, AddOrder(o)), []);
        }
      case OtherFrame(_) =>
    }
    assert b.buyOrders + [] == b.buyOrders && b.sellOrders + [] == b.sellOrders;
  }

  /** The lists the page shows after `frames`: the updates from the first
      batch on, routed by type. */
  function View(frames: seq<Frame>): Book {
    Book(Buys(UpdatesIn(FromFirstBatch(frames))), Sells(UpdatesIn(FromFirstBatch(frames))))
  }

  /** The page's lists and the connection's flag are those the frames give. */
  predicate Shows(loaded: bool, b: Book, frames: seq<Frame>) {
    loaded == HasBatch(frames) && b == View(frames)
  }

  /** The calls the connection makes for one more frame take the page's
      lists from the old frames' view to the new one's, and its flag to
      whether a batch has now been seen. */
  lemma PageStep(frames: seq<Frame>, f: Frame)
    ensures Apply(View(frames), Step(HasBatch(frames), f).1) == View(frames + [f])
    ensures Step(HasBatch(frames), f).0 == HasBatch(frames + [f])
  {
    BookAfterFrame(frames, f);
    StepOnBook(View(frames), HasBatch(frames), f);
    HasBatchSnoc(frames, f);
  }

  /** A single call applied as a list is that call. */
  lemma ApplySingle(b: Book, calls: seq<UiCall>)
    requires |calls| == 1
    ensures Apply(b, calls) == ApplyCall(b, calls[0])
  {
    assert calls[1..] == [];
  }

  /** One frame on a page that shows `frames`: the connection's step and
      the page's callback for its (at most one) call show `frames + [f]`. */
  lemma ReceiveShows(frames: seq<Frame>, f: Frame, before: Book, wasLoaded: bool,
                     loaded: bool, calls: seq<UiCall>, after: Book)
    requires Shows(wasLoaded, before, frames)
    requires (loaded, calls) == Step(wasLoaded, f)
    requires after == if calls == [] then before else ApplyCall(before, calls[0])
    ensures Shows(loaded, after, frames + [f])
  {
    PageStep(frames, f);
    if calls != [] {
      ApplySingle(before, calls);
    }
  }

  class OrderMockPage {
    var buyOrders: seq<OrderbookEntry>
    var sellOrders: seq<OrderbookEntry>
    const connection: OrderBookConnection
    /** Every frame handed to the connection so far. */
    ghost var received: seq<Frame>

    /** The lists show the updates from the first batch on, routed by type,
        and the connection's flag records whether a batch was seen. */
    ghost predicate Valid()
      reads this, connection
    {
      Shows(connection.initialDataLoaded, Book(buyOrders, sellOrders), received)
    }

    /** Mounting: empty lists and a connection for ticker "QNTX" with an
        empty URL (the page never calls `openConnection`). */
    constructor()
      ensures Valid() && fresh(connection)
      ensures buyOrders == [] && sellOrders == [] && received == []
      ensures connection.ticker == "QNTX" && connection.url == ""
      ensures !connection.isLoaded
    {
      buyOrders := [];
      sellOrders := [];
      connection := new OrderBookConnection("", "QNTX");
      received := [];
    }

    /** `addOrder`: exactly one list grows by the entry, at its end. */
    method AddOrder(o: OrderbookEntry)
      modifies this`buyOrders, this`sellOrders
      ensures IsBuy(o) ==> buyOrders == old(buyOrders) + [o] && sellOrders == old(sellOrders)
      ensures !IsBuy(o) ==> sellOrders == old(sellOrders) + [o] && buyOrders == old(buyOrders)
    {
      if o.kind == "buy" {
        buyOrders := buyOrders + [o];
      } else {
        sellOrders := sellOrders + [o];
      }
    }

    /** `setOrders`: the snapshot is discarded. */
    method SetOrders(snapshot: seq<OrderbookEntry>)
      ensures buyOrders == old(buyOrders) && sellOrders == old(sellOrders)
    {
    }

    /** A frame reaches the connection, which calls back into the page. */
    method Receive(f: Frame)
      requires Valid()
      modifies this`buyOrders, this`sellOrders, this`received, connection`initialDataLoaded, connection`uiCalls
      ensures Valid()
      ensures received == old(received) + [f]
      ensures connection.isLoaded == old(connection.isLoaded) && connection.ws == old(connection.ws)
    {
      ghost var frames, before := received, Book(buyOrders, sellOrders);
      ghost var wasLoaded := connection.initialDataLoaded;
      var calls := connection.MessageHandler(f);
      if calls != [] {
        Deliver(calls[0]);
      }
      ReceiveShows(frames, f, before, wasLoaded, connection.initialDataLoaded, calls, Book(buyOrders, sellOrders));
      received := frames + [f];
    }

    /** The page's callback for one call of the connection. */
    method Deliver(c: UiCall)
      modifies this`buyOrders, this`sellOrders
      ensures Book(buyOrders, sellOrders) == ApplyCall(old(Book(buyOrders, sellOrders)), c)
    {
      match c {
        case SetOrders(snapshot) => SetOrders(snapshot);
        case AddOrder(o) => AddOrder(o);
      }
    }
  }
}
