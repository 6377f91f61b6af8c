# Marketplace chat server, modelled in Dafny

This project models the event-handling core of a small real-time marketplace
chat server (`server/server.js`). The server keeps four in-memory stores:
- the registry of joined users, keyed by connection identifier;
- a chat log bounded to 100 messages;
- the set of users who are typing;
- a fixed catalog of three products, each owned by at most one seller
  connection.

Seven socket events drive it: `user_join`, `send_message`, `typing`,
`private_message`, `product_inquiry`, `seller_response` and `disconnect`.
Each one updates the stores and publishes events to every client, to one
target connection, or back to the sender.

The model is a class, `ChatServer.Server`, with those stores as fields:
- `users` and `typing` are maps;
- `messages` is a sequence;
- `products` is a constant array whose elements change owner.

Each handler is a method taking the connection identifier `id` and the
event's payload. It returns what it publishes as a sequence of
`Transport.Delivery` values. The three delivery forms match the three emit
forms of the source:
- `Broadcast` is `io.emit`;
- `ToRoom` is `socket.to(x).emit`;
- `ToSender` is `socket.emit`.

`Transport.Inbox` says which events a given connection receives. A `ToRoom`
delivery reaches the connection named `x`, except when that is the sender.
The clock readings `Date.now()` and `new Date().toISOString()` are a `Clock`
parameter.

Every handler method states its whole new state in terms of the old one,
using specification functions on plain values. `Catalog.AfterJoin`,
`Catalog.AfterLeave`, `Routing.PrivateDeliveries`, `Routing.InquiryDeliveries`
and `Routing.ResponseDeliveries` are the handlers' specification functions;
their rows are the handler methods and the routing lemmas about them. They
rest on:
- `Catalog.AssignUnowned` and `Catalog.ReleaseOwned` for the two `forEach`
  loops over the products;
- `Catalog.FirstWithId` for `products.find`;
- `MessageLog.Append` for push-then-shift;
- the `Routing` functions for the records and deliveries.

The lemmas beside those functions state the properties the server promises:
- a joining seller claims exactly the unowned products, and the first seller
  claims everything;
- a leaving seller owns nothing afterwards;
- the log always holds exactly the newest 100 messages, in order;
- an inquiry about a missing or unowned product reaches nobody, and any
  other inquiry reaches exactly the owner and the sender;
- a response or private message reaches exactly its addressee and the
  sender;
- every owned product is owned by a registered seller, with the exception
  noted below.

`Scenarios` steps through event sequences on the class and asserts what
each client receives:
- a seller joins, then a customer inquires and the seller answers;
- two sellers join and then the first one leaves.
- another client sees a seller's join and disconnect as the runs of their broadcasts (`JoinBroadcasts`, `LeaveBroadcasts`).

Behaviour of the code worth noting:
- Ownership can outlive a role change (server/server.js:48, 156). A
  connection that joined as a seller and re-joins with another role keeps its
  products, and `disconnect` releases products only for the role recorded at
  the last join, so the products then name a connection that is gone.
  `Ownership.RejoinAsCustomerKeepsOwnership` proves this. The invariant
  `OwnersAreSellers` is kept by a join only when the joiner is a seller or
  owns nothing (`Ownership.JoinKeepsOwners`), and by every disconnect.
- A disconnect from a connection that never joined still deletes its entries
  and publishes `user_list` and `typing_users` (server/server.js:169-173); only
  `products_update` and `user_left` depend on registration.
- The sender-name fallback also covers a registered user whose username is
  the empty string (server/server.js:70).
- `socket.to` skips the sender (server/server.js:129), so a seller asking
  about their own product receives the inquiry once (`Transport.TargetAndEcho`).
- A joining seller claims every unowned product (server/server.js:52-56).

## Model

| member | source | states |
|---|---|---|
| `Records.SenderName` | server/server.js:70 | the sender name is never empty; it is the registered username when that is non-empty, and otherwise `Anonymous` |
| `Transport.Inbox` | server/server.js:111-112 | every delivery that reaches a connection puts its event in that connection's inbox, every event in the inbox comes from a delivery that reaches it, the inbox is no longer than the deliveries, and a disconnected client receives nothing |
| `Transport.InboxAppend` | server/server.js:59-61 | what a connection receives from successive emits is what it receives from each, in the order emitted |
| `Transport.BroadcastsReachAll` | server/server.js:59-61 | a run of `io.emit` calls gives every connected client, the sender included, exactly those events once each in order |
| `Transport.BroadcastReachesAll` | server/server.js:82 | `io.emit` reaches every connected client, the sender included, exactly once |
| `Transport.TargetAndEcho` | server/server.js:129-130 | `socket.to(x).emit` followed by `socket.emit` reaches exactly `x` and the sender, once each (once in all when `x` is the sender) |
| `Catalog.AssignUnowned` | server/server.js:51-57 | every product without a seller is now owned by the joining seller, every owned product is unchanged, and no listing field changes |
| `Catalog.ReleaseOwned` | server/server.js:156-161 | every product the leaving seller owned is unowned, every other product is unchanged, no listing changes, and the seller owns nothing |
| `Catalog.FirstWithId` | server/server.js:117 | `find` yields nothing exactly when no product has the id; otherwise it yields the first index holding that id |
| `Catalog.FirstSellerWins` | server/server.js:52-56 | after one seller has joined every product is owned, and a second seller's join changes nothing |
| `Catalog.ReleaseUndoesAssign` | server/server.js:157-161 | a seller that claims products and then leaves leaves the catalog as if it had only left |
| `Catalog.InitialSellerOwnsAll` | server/server.js:36-40 | the first seller to join the initial catalog owns all three products |
| `MessageLog.Append` | server/server.js:75-80 | the log stays within 100 entries, the new message is last, and a full log loses exactly its oldest entry with the rest in order |
| `MessageLog.AppendAllKeepsNewest` | server/server.js:75-80 | after any sequence of messages the log is exactly the newest 100 messages of the whole history, in order |
| `MessageLog.OneHundredFirst` | server/server.js:78-79 | after 101 messages on an empty log, the first is evicted and messages 2..101 remain in order |
| `Routing.ChatRecord` | server/server.js:67-73 | a chat message keeps the payload's fields except `id`, `sender`, `senderId` and `timestamp`; those hold the clock, the sender name fallback and the sender's id |
| `Routing.PrivateNote` | server/server.js:102-109 | a private message carries the sender's id, the name fallback, the message as given and `isPrivate` |
| `Routing.InquiryRecord` | server/server.js:119-126 | an inquiry names the sender as customer (`customerId = id`), carries the product id as given and the name fallback |
| `Routing.ResponseRecord` | server/server.js:136-143 | a response names the sender as seller (`sellerId = id`), carries the product id as given and the name fallback |
| `Routing.PrivateMessageRouting` | server/server.js:101-113 | a private message reaches exactly the addressee `to` and the sender, and no other connection |
| `Routing.InquiryRouting` | server/server.js:116-131 | there are no deliveries exactly when the product is missing or has no seller; otherwise exactly the owner and the sender receive one inquiry |
| `Routing.ResponseRouting` | server/server.js:135-148 | a response reaches exactly `customerId` and the sender whoever owns the product; nothing checks ownership |
| `Ownership.JoinKeepsOwners` | server/server.js:47-57 | a join keeps "every owner is a registered seller" when the joiner is a seller or owns nothing |
| `Ownership.LeaveKeepsOwners` | server/server.js:151-170 | a disconnect always keeps "every owner is a registered seller" |
| `Ownership.RejoinAsCustomerKeepsOwnership` | server/server.js:153-161 | a seller that re-joins as a customer and disconnects still owns the products it claimed, so the invariant fails |
| `ChatServer.Server.constructor` | server/server.js:29-40 | the server starts with no users, no typing entries, an empty log and the three unowned products |
| `ChatServer.Server.OnUserJoin` | server/server.js:47-63 | `users[id]` becomes exactly `{username, id, role}` and other keys keep their values; a seller claims the unowned products and nothing else changes; publishes `user_list`, `user_joined` and `products_update` to everyone |
| `ChatServer.Server.OnSendMessage` | server/server.js:66-83 | the log becomes the bounded append of the new message; users and typing are unchanged; the message is broadcast |
| `ChatServer.Server.OnTyping` | server/server.js:86-98 | an unregistered sender changes nothing and publishes nothing; otherwise `true` records the sender's username and `false` removes the entry, and one `typing_users` broadcast follows |
| `ChatServer.Server.OnPrivateMessage` | server/server.js:101-113 | the deliveries are the private message to `to` and its echo to the sender |
| `ChatServer.Server.OnProductInquiry` | server/server.js:116-132 | the linear search and the deliveries agree with the first product carrying the id and its current owner; no store changes |
| `ChatServer.Server.OnSellerResponse` | server/server.js:135-148 | the deliveries are the response to `customerId` and its echo to the sender; no store changes |
| `ChatServer.Server.OnDisconnect` | server/server.js:151-174 | `id` leaves `users` and `typing`; the log is untouched; a registered seller owns nothing afterwards and others keep their products; `products_update` and `user_left` go out only for a registered connection; `user_list` and `typing_users` always follow |

## Left out

- Express and HTTP setup, CORS, static files, environment loading and `server.listen` (server/server.js:3-27, 191-197): process plumbing with no logic.
- The `/api/messages` and `/api/users` routes (server/server.js:177-184): read-only snapshots of `messages` and `users`, which are fields of the class.
- The root route `/` (server/server.js:186-189): a fixed greeting string.
- The socket.io transport: emits are returned as `Delivery` values. The connected set is a parameter of `Transport.Inbox`. Every connection is assumed to sit only in the room named by its own id, since the source joins no other rooms.
- `Date.now()` and `new Date().toISOString()`: both are the `Clock` parameter.
- `console.log` calls.
- The order of `Object.values(users)` and `Object.values(typingUsers)`: the `user_list` and `typing_users` snapshots are maps keyed by connection id. The client receives their values in key-insertion order, and that order is not modelled.
- Payload validation: payload fields have fixed types. `username`, `role`, `message`, `to` and `customerId` are strings, `productId` is an integer, `isTyping` is a boolean, and the `send_message` payload is a map from field names to opaque strings. Fields the payload lacks arrive as `undefined` and, in the source, end up in the records. A missing or null payload makes `user_join`, `private_message`, `product_inquiry` and `seller_response` throw while destructuring it (server/server.js:47, 101, 116, 135); that error path is not modelled.
- Floating point: `price` is a real number that nothing reads.
- The client files (`client/src/App.jsx`, `client/src/components/*.jsx`): UI rendering.
