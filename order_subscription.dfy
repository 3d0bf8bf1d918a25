/** The order-feed connection (`OrderBookConnection`): a `batch` frame
    hands the snapshot to the UI and marks the initial data as loaded; an
    `update` frame is forwarded only once that flag is set; every other frame
    is ignored.  The socket itself is abstract: its `open`, `message`,
    `close` and `error` events are delivered to `OnEvent`. */
module OrderSubscription {

  datatype OrderbookEntry = OrderbookEntry(
    id: string,
    price: real,
    quantity: real,
    total: real,
    kind: string,          // the entry's `type` property, "buy" or "sell"
    timestamp: string)

  /** A decoded frame, by its `type` property. */
  datatype Frame =
    | Batch(orders: seq<OrderbookEntry>)
    | Update(order: OrderbookEntry)
    | OtherFrame(kind: string)

  /** What the socket delivers: a message whose JSON parses, or one whose
      JSON does not (then `JSON.parse` throws inside the listener). */
  datatype RawMessage = Parsed(frame: Frame) | Unparsable

  datatype SocketEvent = Open | Message(raw: RawMessage) | Close | Error

  /** A call into the UI functions the connection was constructed with. */
  datatype UiCall = SetOrders(snapshot: seq<OrderbookEntry>) | AddOrder(entry: OrderbookEntry)

  /** How `openConnection` ends: with its four listeners registered, or
      with a TypeError at the first `addEventListener` on a null socket. */
  datatype OpenOutcome = ListenersRegistered | ThrewOnNullSocket

  /** The base class's `ws`: null, or a socket with its URL and whether its
      `readyState` is OPEN. */
  datatype Socket = NullSocket | Socket(url: string, isOpen: bool)

  /** What calling `getUrl` does: throw a TypeError (the method does not
      exist), or return an address. */
  datatype GetUrlResult = ThrowsTypeError | ReturnsUrl(address: string)

  /** The snapshot request `getInitialData` sends. */
  datatype SubscriptionPayload = SubscriptionPayload(kind: string, subscription: string, ticker: string)

  /** One step of `messageHandler`: the new `initialDataLoaded` flag and the
      UI calls made, from the old flag and the frame. */
  function Step(loaded: bool, f: Frame): (r: (bool, seq<UiCall>))
    ensures |r.1| <= 1
  {
    match f
    case Batch(orders) => (true, [SetOrders(orders)])
    case Update(order) => (loaded, if loaded then [AddOrder(order)] else [])
    case OtherFrame(_) => (loaded, [])
  }

  /** `messageHandler` applied to a sequence of frames in receipt order. */
  function Run(loaded: bool, frames: seq<Frame>): (bool, seq<UiCall>)
    decreases |frames|
  {
    if frames == [] then (loaded, [])
    else
      var first := Step(loaded, frames[0]);
      var rest := Run(first.0, frames[1..]);
      (rest.0, first.1 + rest.1)
  }

  predicate HasBatch(frames: seq<Frame>) {
    exists i :: 0 <= i < |frames| && frames[i].Batch?
  }

  /** The UI call a frame causes once the initial data is loaded. */
  function ReadyCalls(frames: seq<Frame>): seq<UiCall>
    decreases |frames|
  {
    if frames == [] then [] else Step(true, frames[0]).1 + ReadyCalls(frames[1..])
  }

  /** The frames from the first `batch` on (empty when there is none). */
  function FromFirstBatch(frames: seq<Frame>): (r: seq<Frame>)
    ensures |r| <= |frames|
    ensures r != [] ==> r[0].Batch?
    ensures forall i :: 0 <= i < |frames| - |r| ==> !frames[i].Batch?
    decreases |frames|
  {
    if frames == [] then []
    else if frames[0].Batch? then frames
    else
      var r := FromFirstBatch(frames[1..]);
      assert forall i :: 1 <= i < |frames| - |r| ==> frames[i] == frames[1..][i - 1];
      r
  }

  /** The frames from the first `batch` on are a suffix of the input. */
  lemma {:induction false} FromFirstBatchIsSuffix(frames: seq<Frame>)
    ensures FromFirstBatch(frames) == frames[|frames| - |FromFirstBatch(frames)|..]
    decreases |frames|
  {
    if frames != [] && !frames[0].Batch? {
      FromFirstBatchIsSuffix(frames[1..]);
    }
  }

  /** Until a `batch` arrives, nothing reaches the UI and the flag stays
      false, whatever updates or other frames come in. */
  lemma {:induction false} UpdatesBeforeBatchDropped(frames: seq<Frame>)
    requires !HasBatch(frames)
    ensures Run(false, frames) == (false, [])
    decreases |frames|
  {
    if frames != [] {
      assert !frames[0].Batch?;
      assert !HasBatch(frames[1..]) by {
        forall i | 0 <= i < |frames| - 1 ensures !frames[1..][i].Batch? {
          assert frames[1..][i] == frames[i + 1];
        }
      }
      UpdatesBeforeBatchDropped(frames[1..]);
      assert Run(false, frames).1 == [];
      assert Run(false, frames).0 == false;
    } else {
      assert Run(false, frames).1 == [];
      assert Run(false, frames).0 == false;
    }
  }

  /** Once true, the flag stays true: no frame resets it. */
  lemma {:induction false} LoadedStaysLoaded(frames: seq<Frame>)
    ensures Run(true, frames).0
    ensures Run(true, frames).1 == ReadyCalls(frames)
    decreases |frames|
  {
    if frames != [] {
      LoadedStaysLoaded(frames[1..]);
    }
  }

  /** The flag ends true exactly when some `batch` was received, and the UI
      sees precisely the reactions to the frames from the first `batch` on. */
  lemma {:induction false} RunFromFirstBatch(frames: seq<Frame>)
    ensures Run(false, frames).0 <==> HasBatch(frames)
    ensures Run(false, frames).1 == ReadyCalls(FromFirstBatch(frames))
    decreases |frames|
  {
    if frames == [] {
    } else if frames[0].Batch? {
      LoadedStaysLoaded(frames[1..]);
      assert HasBatch(frames) by { assert frames[0].Batch?; }
    } else {
      RunFromFirstBatch(frames[1..]);
      HasBatchTail(frames);
      var rest := Run(false, frames[1..]);
      assert Step(false, frames[0]) == (false, []);
      assert [] + rest.1 == rest.1;
      assert Run(false, frames) == (rest.0, [] + rest.1);
    }
  }

  /** A frame that is not a `batch` does not change whether one was received. */
  lemma HasBatchTail(frames: seq<Frame>)
    requires frames != [] && !frames[0].Batch?
    ensures HasBatch(frames) <==> HasBatch(frames[1..])
  {
    if HasBatch(frames) {
      var i :| 0 <= i < |frames| && frames[i].Batch?;
      assert i > 0 && frames[1..][i - 1] == frames[i];
    }
    if HasBatch(frames[1..]) {
      var i :| 0 <= i < |frames[1..]| && frames[1..][i].Batch?;
      assert frames[i + 1] == frames[1..][i];
    }
  }

  /** After the initial data is loaded, each `batch` and each `update`
      causes exactly one UI call and no other frame causes any. */
  lemma {:induction false} ReadyCallsPerFrame(frames: seq<Frame>)
    ensures |ReadyCalls(frames)| == |frames| - |OthersIn(frames)|
    decreases |frames|
  {
    if frames != [] {
      ReadyCallsPerFrame(frames[1..]);
    }
  }

  /** The frames that are neither `batch` nor `update`. */
  function OthersIn(frames: seq<Frame>): (r: seq<Frame>)
    ensures |r| <= |frames|
    decreases |frames|
  {
    if frames == [] then []
    else (if frames[0].OtherFrame? then [frames[0]] else []) + OthersIn(frames[1..])
  }

  class OrderBookConnection {
    const url: string
    const ticker: string
    /** Set by the socket's `open` event; no frame handling reads it. */
    var isLoaded: bool
    /** Set by the first `batch` frame; nothing ever resets it. */
    var initialDataLoaded: bool
    /** Every UI call the connection has made, in order. */
    ghost var uiCalls: seq<UiCall>
    /** The base class's socket, null until `connect` creates one. */
    var ws: Socket
    /** The base class's guard; nothing ever sets it. */
    var isConnecting: bool
    /** Whether `openConnection` got as far as registering its listeners. */
    var listening: bool

    constructor(url: string, ticker: string)
      ensures this.url == url && this.ticker == ticker
      ensures !isLoaded && !initialDataLoaded && uiCalls == []
      ensures ws == NullSocket && !isConnecting && !listening
    {
      this.url := url;
      this.ticker := ticker;
      isLoaded := false;
      initialDataLoaded := false;
      uiCalls := [];
      ws := NullSocket;
      isConnecting := false;
      listening := false;
    }

    /** The base class's `connect`: nothing happens while the socket is
        open or a connection is under way; otherwise the socket is created
        for the address `getUrl` returns, and a throw from `getUrl` is
        caught and logged, leaving the socket as it was. */
    method Connect(getUrl: GetUrlResult)
      modifies this`ws
      ensures (old(ws).Socket? && old(ws).isOpen) || isConnecting ==> ws == old(ws)
      ensures !((old(ws).Socket? && old(ws).isOpen) || isConnecting) ==>
        ws == if getUrl.ReturnsUrl? then Socket(getUrl.address, false) else old(ws)
    {
      if (ws.Socket? && ws.isOpen) || isConnecting {
        return;
      }
      match getUrl {
        case ThrowsTypeError =>
        case ReturnsUrl(address) => ws := Socket(address, false);
      }
    }

    /** `openConnection` for a given behaviour of `getUrl`: `connect`, then
        the four listeners go on the socket, or the first `addEventListener`
        throws when the socket is still null and nothing else happens. */
    method OpenWith(getUrl: GetUrlResult) returns (r: OpenOutcome)
      modifies this`ws, this`listening
      ensures r == ListenersRegistered <==> ws.Socket?
      ensures r == ListenersRegistered ==> listening
      ensures r == ThrewOnNullSocket ==> ws == old(ws) && listening == old(listening)
      ensures getUrl == ThrowsTypeError ==> ws == old(ws)
      ensures old(ws) == NullSocket && !isConnecting ==>
        (r == ListenersRegistered <==> getUrl.ReturnsUrl?)
      ensures old(ws) == NullSocket && !isConnecting && getUrl.ReturnsUrl? ==>
        ws == Socket(getUrl.address, false)
    {
      Connect(getUrl);
      if ws == NullSocket {
        r := ThrewOnNullSocket;
      } else {
        listening := true;
        r := ListenersRegistered;
      }
    }

    /** `openConnection` as written: the class defines no `getUrl`, so the
        call inside `connect` throws.  The socket never changes, and the
        method throws exactly when the socket is still null. */
    method OpenConnection() returns (r: OpenOutcome)
      modifies this`ws, this`listening
      ensures ws == old(ws)
      ensures r == ThrewOnNullSocket <==> old(ws) == NullSocket
      ensures r == ThrewOnNullSocket ==> listening == old(listening)
    {
      r := OpenWith(ThrowsTypeError);
    }

    /** `messageHandler`. */
    method MessageHandler(f: Frame) returns (calls: seq<UiCall>)
      modifies this`initialDataLoaded, this`uiCalls
      ensures (initialDataLoaded, calls) == Step(old(initialDataLoaded), f)
      ensures f.Update? && !old(initialDataLoaded) ==> calls == [] && initialDataLoaded == old(initialDataLoaded)
      ensures f.Batch? ==> calls == [SetOrders(f.orders)] && initialDataLoaded
      ensures f.Update? && old(initialDataLoaded) ==> calls == [AddOrder(f.order)]
      ensures f.OtherFrame? ==> calls == [] && initialDataLoaded == old(initialDataLoaded)
      ensures uiCalls == old(uiCalls) + calls
    {
      match f {
        case Batch(orders) =>
          calls := [SetOrders(orders)];
          initialDataLoaded := true;
        case Update(order) =>
          calls := if initialDataLoaded then [AddOrder(order)] else [];
        case OtherFrame(_) =>
          calls := [];
      }
      uiCalls := uiCalls + calls;
    }

    /** The listeners: `open` sets `isLoaded`, `message` parses the frame and
        hands it to `MessageHandler` (an unparsable one throws before that),
        `close` and `error` only log.  As written they are never attached,
        because `OpenConnection` throws before registering them
        (`FreshConnectionCannotOpen`). */
    method OnEvent(e: SocketEvent) returns (calls: seq<UiCall>)
      modifies this`isLoaded, this`initialDataLoaded, this`uiCalls
      ensures isLoaded == (old(isLoaded) || e.Open?)
      ensures e.Message? && e.raw.Parsed? ==>
        (initialDataLoaded, calls) == Step(old(initialDataLoaded), e.raw.frame)
      ensures !(e.Message? && e.raw.Parsed?) ==> calls == [] && initialDataLoaded == old(initialDataLoaded)
      ensures uiCalls == old(uiCalls) + calls
    {
      calls := [];
      match e {
        case Open =>
          isLoaded := true;
        case Message(raw) =>
          if raw.Parsed? {
            calls := MessageHandler(raw.frame);
          }
        case Close =>
        case Error =>
      }
    }

    /** `getInitialData`'s payload. */
    function SnapshotPayload(): (p: SubscriptionPayload)
      reads this
      ensures p.kind == "orders" && p.subscription == "snapshot" && p.ticker == ticker
    {
      SubscriptionPayload("orders", "snapshot", ticker)
    }
  }

  /** A new connection cannot be opened: `openConnection` throws on the
      null socket and registers no listener. */
  method FreshConnectionCannotOpen(url: string, ticker: string) returns (c: OrderBookConnection, r: OpenOutcome)
    ensures r == ThrewOnNullSocket
    ensures c.ws == NullSocket && !c.listening
  {
    c := new OrderBookConnection(url, ticker);
    r := c.OpenConnection();
  }

  /** Were `getUrl` defined, a new connection would get a socket for its
      address and register its listeners on it. */
  method DefinedUrlRegisters(url: string, ticker: string, address: string) returns (c: OrderBookConnection, r: OpenOutcome)
    ensures r == ListenersRegistered
    ensures c.ws == Socket(address, false) && c.listening
  {
    c := new OrderBookConnection(url, ticker);
    r := c.OpenWith(ReturnsUrl(address));
  }

  /** The close listener changes nothing, so a closed connection still
      forwards updates to the UI as soon as frames arrive again. */
  method CloseKeepsFeedLoaded(c: OrderBookConnection, entry: OrderbookEntry) returns (calls: seq<UiCall>)
    requires c.initialDataLoaded
    modifies c
    ensures calls == [AddOrder(entry)]
  {
    var none := c.OnEvent(Close);
    calls := c.OnEvent(Message(Parsed(Update(entry))));
  }
}
