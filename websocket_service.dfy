// The server's notification fan-out (server/services/websocketService.ts):
// a set of connected clients kept current by the connection, close and
// error events, and broadcasts that reach exactly the open clients.

module Notifications {
  import opened Common
  import opened Schema

  /** The `MessageType` enum. */
  datatype MessageType = NewProducts | PriceUpdates | AvailabilityUpdates | SystemNotification

  /** The wire value of each message type. */
  function TypeName(t: MessageType): (r: string)
    ensures |r| > 0
  {
    match t
    case NewProducts => "new_products"
    case PriceUpdates => "price_updates"
    case AvailabilityUpdates => "availability_updates"
    case SystemNotification => "system_notification"
  }

  /** Distinct message types go out under distinct names. */
  lemma TypeNameInjective(s: MessageType, t: MessageType)
    requires TypeName(s) == TypeName(t)
    ensures s == t
  {
  }

  /** The `data` payloads the service sends. */
  datatype Data =
    | Notice(message: string)
    | ProductList(products: seq<Product>, count: int)
    | CountNotice(count: int, message: string)

  datatype Message = Message(kind: MessageType, data: Data, timestamp: int)

  const WelcomeText := "Connected to Product Search Engine updates"
  const PriceSuffix := " products have updated prices"
  const AvailabilitySuffix := " products have updated availability"

  /** The welcome a new client receives; `now` stands for `Date.now()`. */
  function Welcome(now: int): (r: Message)
    ensures r.kind == SystemNotification && r.data.Notice? && r.timestamp == now
  {
    Message(SystemNotification, Notice(WelcomeText), now)
  }

  /** The `NewProducts` message: the products and how many there are. */
  function NewProductsMessage(products: seq<Product>, now: int): (r: Message)
    ensures r.kind == NewProducts && r.data.ProductList?
    ensures r.data.products == products && r.data.count == |products|
  {
    Message(NewProducts, ProductList(products, |products|), now)
  }

  function CountText(count: int, suffix: string): string {
    IntToString(count) + suffix
  }

  function PriceUpdatesMessage(count: int, now: int): Message {
    Message(PriceUpdates, CountNotice(count, CountText(count, PriceSuffix)), now)
  }

  function AvailabilityUpdatesMessage(count: int, now: int): Message {
    Message(AvailabilityUpdates, CountNotice(count, CountText(count, AvailabilitySuffix)), now)
  }

  /** The count messages carry the given count, and their text names it:
      two different counts never produce the same text. */
  lemma CountMessagesSpec(count: int, other: int, now: int)
    ensures var p := PriceUpdatesMessage(count, now);
      p.kind == PriceUpdates && p.data.CountNotice? && p.data.count == count
    ensures var a := AvailabilityUpdatesMessage(count, now);
      a.kind == AvailabilityUpdates && a.data.CountNotice? && a.data.count == count
    ensures CountText(count, PriceSuffix) == CountText(other, PriceSuffix) ==> count == other
    ensures CountText(count, AvailabilitySuffix) == CountText(other, AvailabilitySuffix) ==> count == other
  {
    if CountText(count, PriceSuffix) == CountText(other, PriceSuffix) {
      CountTextInjective(count, other, PriceSuffix);
    }
    if CountText(count, AvailabilitySuffix) == CountText(other, AvailabilitySuffix) {
      CountTextInjective(count, other, AvailabilitySuffix);
    }
  }

  lemma CountTextInjective(m: int, n: int, suffix: string)
    requires CountText(m, suffix) == CountText(n, suffix)
    ensures m == n
  {
    var a, b := IntToString(m), IntToString(n);
    assert a == CountText(m, suffix)[..|CountText(m, suffix)| - |suffix|];
    assert b == CountText(n, suffix)[..|CountText(n, suffix)| - |suffix|];
    IntToStringInjective(m, n);
  }

  // ---------------------------------------------------------------------
  // Sockets
  // ---------------------------------------------------------------------

  /** A socket handle; the `ws` library's objects are opaque here. */
  type Client = nat

  datatype ReadyState = Connecting | Open | Closing | Closed

  /** One message handed to one socket's `send`. `JSON.stringify` is opaque,
      so the message itself stands for its serialized string. */
  datatype Delivery = Delivery(client: Client, message: Message)

  predicate IsOpen(states: map<Client, ReadyState>, c: Client) {
    c in states && states[c] == Open
  }

  /** What a broadcast of `m` sends, in the set's iteration order. */
  function Deliveries(clients: seq<Client>, states: map<Client, ReadyState>, m: Message): seq<Delivery> {
    if clients == [] then []
    else
      var c := clients[|clients| - 1];
      Deliveries(clients[..|clients| - 1], states, m) + (if IsOpen(states, c) then [Delivery(c, m)] else [])
  }

  /** A broadcast reaches a client iff the client is in the set and open; it
      sends only the broadcast message; and, the set holding no repeats,
      it reaches each open member exactly once. */
  lemma {:induction false} DeliveriesSpec(clients: seq<Client>, states: map<Client, ReadyState>, m: Message)
    requires NoDup(clients)
    ensures forall d :: d in Deliveries(clients, states, m) ==> d.message == m
    ensures forall c :: Delivery(c, m) in Deliveries(clients, states, m) <==> c in clients && IsOpen(states, c)
    ensures forall c :: Count(Deliveries(clients, states, m), Delivery(c, m)) == (if c in clients && IsOpen(states, c) then 1 else 0)
  {
    if clients != [] {
      var init, last := clients[..|clients| - 1], clients[|clients| - 1];
      assert clients == init + [last];
      assert NoDup(init);
      DeliveriesSpec(init, states, m);
      var d := Deliveries(clients, states, m);
      var di := Deliveries(init, states, m);
      assert d == di + (if IsOpen(states, last) then [Delivery(last, m)] else []);
      forall c
        ensures Count(d, Delivery(c, m)) == (if c in clients && IsOpen(states, c) then 1 else 0)
      {
        if IsOpen(states, last) {
          assert d[..|d| - 1] == di;
          if c == last {
            assert last !in init;
          }
        } else {
          assert d == di;
        }
      }
    }
  }

  /** The state of the sockets outside the service: each handle's
      `readyState`, and everything handed to `send` so far. */
  class Network {
    var states: map<Client, ReadyState>
    var sent: seq<Delivery>

    constructor(states: map<Client, ReadyState>)
      ensures this.states == states && sent == []
    {
      this.states := states;
      sent := [];
    }

    /** `client.send(...)`. */
    method Send(c: Client, m: Message)
      modifies this
      ensures states == old(states)
      ensures sent == old(sent) + [Delivery(c, m)]
    {
      sent := sent + [Delivery(c, m)];
    }
  }

  // ---------------------------------------------------------------------
  // The service
  // ---------------------------------------------------------------------

  class WebSocketService {
    /** The `clients` Set, listed in insertion order. */
    var clients: seq<Client>

    ghost predicate Valid()
      reads this
    {
      NoDup(clients)
    }

    constructor()
      ensures Valid() && clients == []
    {
      clients := [];
    }

    /** `sendToClient`: sends only to an open client. */
    method SendToClient(net: Network, c: Client, m: Message)
      modifies net
      ensures net.states == old(net.states)
      ensures net.sent == old(net.sent) + (if IsOpen(old(net.states), c) then [Delivery(c, m)] else [])
    {
      if c in net.states && net.states[c] == Open {
        net.Send(c, m);
      }
    }

    /** The `connection` handler: add the client, then welcome it if it is open. */
    method OnConnection(net: Network, ws: Client, now: int)
      requires Valid()
      modifies this, net
      ensures Valid()
      ensures clients == Add(old(clients), ws)
      ensures net.states == old(net.states)
      ensures net.sent == old(net.sent) + (if IsOpen(old(net.states), ws) then [Delivery(ws, Welcome(now))] else [])
    {
      AddSpec(clients, ws);
      clients := Add(clients, ws);
      SendToClient(net, ws, Welcome(now));
    }

    /** The `close` handler: forget the client; an unknown client changes nothing. */
    method OnClose(ws: Client)
      requires Valid()
      modifies this
      ensures Valid()
      ensures clients == Remove(old(clients), ws)
    {
      RemoveSpec(clients, ws);
      clients := Remove(clients, ws);
    }

    /** The `error` handler does the same as `close`. */
    method OnError(ws: Client)
      requires Valid()
      modifies this
      ensures Valid()
      ensures clients == Remove(old(clients), ws)
    {
      OnClose(ws);
    }

    /** `broadcast`: one send to every open client in the set, in the set's
        order; the set itself is left alone, closed members included. */
    method Broadcast(net: Network, m: Message)
      modifies net
      ensures net.states == old(net.states)
      ensures net.sent == old(net.sent) + Deliveries(clients, net.states, m)
    {
      var i := 0;
      while i < |clients|
        invariant 0 <= i <= |clients|
        invariant net.states == old(net.states)
        invariant net.sent == old(net.sent) + Deliveries(clients[..i], net.states, m)
      {
        var c := clients[i];
        assert clients[..i + 1][..i] == clients[..i];
        if c in net.states && net.states[c] == Open {
          net.Send(c, m);
        }
        i := i + 1;
      }
      assert clients[..i] == clients;
    }

    /** `broadcastNewProducts`. */
    method BroadcastNewProducts(net: Network, products: seq<Product>, now: int)
      modifies net
      ensures net.states == old(net.states)
      ensures net.sent == old(net.sent) + Deliveries(clients, net.states, NewProductsMessage(products, now))
    {
      Broadcast(net, NewProductsMessage(products, now));
    }

    /** `broadcastPriceUpdates`. */
    method BroadcastPriceUpdates(net: Network, count: int, now: int)
      modifies net
      ensures net.states == old(net.states)
      ensures net.sent == old(net.sent) + Deliveries(clients, net.states, PriceUpdatesMessage(count, now))
    {
      Broadcast(net, PriceUpdatesMessage(count, now));
    }

    /** `broadcastAvailabilityUpdates`. */
    method BroadcastAvailabilityUpdates(net: Network, count: int, now: int)
      modifies net
      ensures net.states == old(net.states)
      ensures net.sent == old(net.sent) + Deliveries(clients, net.states, AvailabilityUpdatesMessage(count, now))
    {
      Broadcast(net, AvailabilityUpdatesMessage(count, now));
    }
  }
}
