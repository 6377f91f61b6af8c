/**
 * The three ways a handler publishes an event, as values: `io.emit` (every
 * connected client), `socket.to(room).emit` (the connections in `room`
 * except the sender) and `socket.emit` (the sender only). Every connection
 * is in the room named by its own identifier and in no other.
 */
module Transport {
  import opened Records

  datatype Delivery =
    | Broadcast(event: Event)
    | ToRoom(room: string, event: Event)
    | ToSender(event: Event)

  /** Whether connection `c` receives delivery `d` made by `sender`, given the connected set. */
  predicate Reaches(d: Delivery, sender: ConnId, connected: set<ConnId>, c: ConnId) {
    c in connected &&
    match d
    case Broadcast(_) => true
    case ToRoom(room, _) => c == room && c != sender
    case ToSender(_) => c == sender
  }

  /** The events connection `c` receives from `ds`, in order. */
  function Inbox(ds: seq<Delivery>, sender: ConnId, connected: set<ConnId>, c: ConnId): (r: seq<Event>)
    ensures |r| <= |ds|
    ensures c !in connected ==> r == []
    ensures forall e :: e in r ==> exists d :: d in ds && d.event == e && Reaches(d, sender, connected, c)
    ensures forall i :: 0 <= i < |ds| && Reaches(ds[i], sender, connected, c) ==> ds[i].event in r
  {
    if ds == [] then []
    else
      (if Reaches(ds[0], sender, connected, c) then [ds[0].event] else [])
      + Inbox(ds[1..], sender, connected, c)
  }

  /** What `c` receives from two batches of deliveries is what it receives from each, in order. */
  lemma {:induction false} InboxAppend(a: seq<Delivery>, b: seq<Delivery>, sender: ConnId, connected: set<ConnId>, c: ConnId)
    ensures Inbox(a + b, sender, connected, c) == Inbox(a, sender, connected, c) + Inbox(b, sender, connected, c)
  {
    if a == [] {
      assert a + b == b;
    } else {
      assert (a + b)[1..] == a[1..] + b;
      InboxAppend(a[1..], b, sender, connected, c);
    }
  }

  /** The events carried by `ds`, in order. */
  function Events(ds: seq<Delivery>): (es: seq<Event>)
    ensures |es| == |ds| && forall i :: 0 <= i < |ds| ==> es[i] == ds[i].event
  {
    seq(|ds|, i requires 0 <= i < |ds| => ds[i].event)
  }

  /**
   * A run of broadcasts reaches every connected client, the sender included,
   * with each event exactly once and in the order published.
   */
  lemma {:induction false} BroadcastsReachAll(ds: seq<Delivery>, sender: ConnId, connected: set<ConnId>, c: ConnId)
    requires forall i :: 0 <= i < |ds| ==> ds[i].Broadcast?
    ensures Inbox(ds, sender, connected, c) == if c in connected then Events(ds) else []
  {
    if ds != [] {
      BroadcastsReachAll(ds[1..], sender, connected, c);
      assert Events(ds) == [ds[0].event] + Events(ds[1..]);
    }
  }

  /** A broadcast reaches exactly the connected clients, the sender included. */
  lemma BroadcastReachesAll(e: Event, sender: ConnId, connected: set<ConnId>, c: ConnId)
    ensures Inbox([Broadcast(e)], sender, connected, c) == if c in connected then [e] else []
  {
  }

  /**
   * A targeted delivery followed by its echo to the sender reaches exactly the
   * target and the sender, once each, when they are connected; a target
   * equal to the sender receives the event once.
   */
  lemma TargetAndEcho(room: string, e: Event, sender: ConnId, connected: set<ConnId>, c: ConnId)
    ensures Inbox([ToRoom(room, e), ToSender(e)], sender, connected, c)
         == if c in connected && (c == room || c == sender) then [e] else []
  {
  }
}
