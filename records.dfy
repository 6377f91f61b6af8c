/**
 * The records the chat server keeps and publishes: users, products, chat
 * messages, private messages, product inquiries and seller responses, and the
 * named events sent to clients.
 */
module Records {
  import opened Wrappers

  /** A transport-assigned connection identifier (`socket.id`); it is never empty. */
  type ConnId = s: string | s != "" witness "c"

  /** An entry of `users`: `{ username, id, role }`. */
  datatype User = User(username: string, id: ConnId, role: string)

  /**
   * An entry of `products`. `price` is a floating-point literal in the source;
   * here it is a real number that nothing reads. `sellerId` is `null` (None)
   * or the connection that owns the product.
   */
  datatype Product = Product(id: int, name: string, price: real, description: string, sellerId: Option<ConnId>)

  /** The two clock readings a handler makes: `Date.now()` and `new Date().toISOString()`. */
  datatype Clock = Clock(millis: int, iso: string)

  /**
   * A public chat message: the client's payload fields (`fields`), with `id`,
   * `sender`, `senderId` and `timestamp` set by the server.
   */
  datatype ChatMessage = ChatMessage(fields: map<string, string>, id: int, sender: string, senderId: ConnId, timestamp: string)

  datatype PrivateRecord = PrivateRecord(id: int, sender: string, senderId: ConnId, message: string, timestamp: string, isPrivate: bool)

  datatype Inquiry = Inquiry(id: int, productId: int, customerId: ConnId, customerName: string, message: string, timestamp: string)

  datatype Response = Response(id: int, productId: int, sellerId: ConnId, sellerName: string, message: string, timestamp: string)

  /**
   * The outbound events. `user_list` and `typing_users` carry a snapshot of the
   * whole store, keyed by connection (the client receives its values).
   */
  datatype Event =
    | UserList(users: map<ConnId, User>)
    | UserJoined(joined: User)
    | UserLeft(left: User)
    | ProductsUpdate(products: seq<Product>)
    | ReceiveMessage(chat: ChatMessage)
    | TypingUsers(typing: map<ConnId, string>)
    | PrivateMessage(note: PrivateRecord)
    | ProductInquiry(inquiry: Inquiry)
    | SellerResponse(response: Response)

  const Anonymous: string := "Anonymous"

  /** `role === 'seller'` */
  predicate IsSeller(role: string) {
    role == "seller"
  }

  /**
   * `users[id]?.username || 'Anonymous'`: the registered name, unless the
   * connection is unregistered or its name is the empty (falsy) string.
   */
  function SenderName(users: map<ConnId, User>, id: ConnId): (name: string)
    ensures name != ""
    ensures name == Anonymous || (id in users && name == users[id].username)
    ensures id in users && users[id].username != "" ==> name == users[id].username
  {
    if id in users && users[id].username != "" then users[id].username else Anonymous
  }
}
