/**
 * The records the handlers build and where they are sent. `private_message`,
 * `product_inquiry` and `seller_response` change no store: each is a
 * record built from the sender's registration and the clock, sent to a
 * target and echoed to the sender.
 */
module Routing {
  import opened Wrappers
  import opened Records
  import opened Transport
  import Catalog

  /** The keys the server writes over the client's `send_message` payload. */
  const Reserved: set<string> := {"id", "sender", "senderId", "timestamp"}

  /** `{ ...messageData, id, sender, senderId, timestamp }` */
  function ChatRecord(users: map<ConnId, User>, id: ConnId, payload: map<string, string>, clock: Clock): (m: ChatMessage)
    ensures m.senderId == id && m.sender == SenderName(users, id)
    ensures m.id == clock.millis && m.timestamp == clock.iso
    ensures m.fields.Keys == payload.Keys - Reserved
    ensures forall k :: k in m.fields ==> m.fields[k] == payload[k]
  {
    ChatMessage(payload - Reserved, clock.millis, SenderName(users, id), id, clock.iso)
  }

  function PrivateNote(users: map<ConnId, User>, id: ConnId, message: string, clock: Clock): (n: PrivateRecord)
    ensures n.senderId == id && n.sender == SenderName(users, id) && n.message == message && n.isPrivate
    ensures n.id == clock.millis && n.timestamp == clock.iso
  {
    PrivateRecord(clock.millis, SenderName(users, id), id, message, clock.iso, true)
  }

  function InquiryRecord(users: map<ConnId, User>, id: ConnId, productId: int, message: string, clock: Clock): (q: Inquiry)
    ensures q.customerId == id && q.productId == productId && q.customerName == SenderName(users, id)
    ensures q.message == message
    ensures q.id == clock.millis && q.timestamp == clock.iso
  {
    Inquiry(clock.millis, productId, id, SenderName(users, id), message, clock.iso)
  }

  function ResponseRecord(users: map<ConnId, User>, id: ConnId, productId: int, message: string, clock: Clock): (a: Response)
    ensures a.sellerId == id && a.productId == productId && a.sellerName == SenderName(users, id)
    ensures a.message == message
    ensures a.id == clock.millis && a.timestamp == clock.iso
  {
    Response(clock.millis, productId, id, SenderName(users, id), message, clock.iso)
  }

  /** `private_message({ to, message })` */
  function PrivateDeliveries(users: map<ConnId, User>, id: ConnId, to: string, message: string, clock: Clock): seq<Delivery> {
    var e := PrivateMessage(PrivateNote(users, id, message, clock));
    [ToRoom(to, e), ToSender(e)]
  }

  /** `product_inquiry({ productId, message })`: dropped unless the product exists and has a seller. */
  function InquiryDeliveries(ps: seq<Product>, users: map<ConnId, User>, id: ConnId, productId: int, message: string, clock: Clock): seq<Delivery> {
    match Catalog.FirstWithId(ps, productId)
    case None => []
    case Some(i) =>
      match ps[i].sellerId
      case None => []
      case Some(seller) =>
        var e := ProductInquiry(InquiryRecord(users, id, productId, message, clock));
        [ToRoom(seller, e), ToSender(e)]
  }

  /** `seller_response({ customerId, productId, message })`: nothing checks that the sender owns the product. */
  function ResponseDeliveries(users: map<ConnId, User>, id: ConnId, customerId: string, productId: int, message: string, clock: Clock): seq<Delivery> {
    var e := SellerResponse(ResponseRecord(users, id, productId, message, clock));
    [ToRoom(customerId, e), ToSender(e)]
  }

  /** A private message reaches the addressee and the sender, and no one else. */
  lemma PrivateMessageRouting(users: map<ConnId, User>, id: ConnId, to: string, message: string, clock: Clock,
                              connected: set<ConnId>, c: ConnId)
    ensures Inbox(PrivateDeliveries(users, id, to, message, clock), id, connected, c)
         == if c in connected && (c == to || c == id) then [PrivateMessage(PrivateNote(users, id, message, clock))] else []
  {
  }

  /**
   * An inquiry about a product that does not exist or has no seller is
   * dropped: no connection receives anything. Otherwise exactly the seller
   * and the sender receive one inquiry naming the sender as customer.
   */
  lemma InquiryRouting(ps: seq<Product>, users: map<ConnId, User>, id: ConnId, productId: int, message: string, clock: Clock,
                       connected: set<ConnId>, c: ConnId)
    ensures InquiryDeliveries(ps, users, id, productId, message, clock) == [] <==> Catalog.Owner(ps, productId).None?
    ensures Catalog.Owner(ps, productId).None? ==>
              Inbox(InquiryDeliveries(ps, users, id, productId, message, clock), id, connected, c) == []
    ensures Catalog.Owner(ps, productId).Some? ==>
              (Inbox(InquiryDeliveries(ps, users, id, productId, message, clock), id, connected, c)
               == if c in connected && (c == Catalog.Owner(ps, productId).value || c == id)
                  then [ProductInquiry(InquiryRecord(users, id, productId, message, clock))] else [])
  {
  }

  /**
   * A seller response reaches the named customer and the sender, whatever the
   * catalog says about who owns the product.
   */
  lemma ResponseRouting(users: map<ConnId, User>, id: ConnId, customerId: string, productId: int, message: string, clock: Clock,
                        connected: set<ConnId>, c: ConnId)
    ensures Inbox(ResponseDeliveries(users, id, customerId, productId, message, clock), id, connected, c)
         == if c in connected && (c == customerId || c == id)
            then [SellerResponse(ResponseRecord(users, id, productId, message, clock))] else []
  {
  }
}
