/**
 * The chat server's process-wide state and its socket event handlers. Each
 * handler runs to completion for one inbound event from connection `id`,
 * updates the stores, and returns what it publishes as deliveries.
 */
module ChatServer {
  import opened Wrappers
  import opened Records
  import opened Transport
  import Catalog
  import MessageLog
  import Routing
  import Ownership

  class Server {
    /** Connection identifier to user record. */
    var users: map<ConnId, User>
    /** Connection identifier to the name of a user who is typing. */
    var typing: map<ConnId, string>
    /** The public chat log, oldest first. */
    var messages: seq<ChatMessage>
    /** The catalog; only the owners of its products change. */
    const products: array<Product>

    ghost predicate Valid()
      reads this, products
    {
      && |messages| <= MessageLog.MaxMessages
      && typing.Keys <= users.Keys
      && (forall k :: k in users ==> users[k].id == k)
      && Catalog.SameListing(products[..], Catalog.InitialCatalog)
    }

    /** Every owned product is owned by a connection registered as a seller. */
    ghost predicate OwnersAreSellers()
      reads this, products
    {
      Ownership.OwnersAreSellers(products[..], users)
    }

    constructor ()
      ensures Valid() && OwnersAreSellers() && fresh(products)
      ensures users == map[] && typing == map[] && messages == []
      ensures products[..] == Catalog.InitialCatalog
    {
      users, typing, messages := map[], map[], [];
      products := new Product[|Catalog.InitialCatalog|](i requires 0 <= i < |Catalog.InitialCatalog| => Catalog.InitialCatalog[i]);
    }

    /** `user_join` */
    method OnUserJoin(id: ConnId, username: string, role: string) returns (out: seq<Delivery>)
      requires Valid()
      modifies this, products
      ensures Valid()
      ensures users == old(users)[id := User(username, id, role)]
      ensures forall k :: k in old(users) && k != id ==> k in users && users[k] == old(users)[k]
      ensures typing == old(typing) && messages == old(messages)
      ensures products[..] == Catalog.AfterJoin(old(products[..]), id, role)
      ensures !IsSeller(role) ==> products[..] == old(products[..])
      ensures old(OwnersAreSellers()) && (IsSeller(role) || !Catalog.OwnsAny(old(products[..]), id)) ==> OwnersAreSellers()
      ensures out == [Broadcast(UserList(users)), Broadcast(UserJoined(User(username, id, role))),
                      Broadcast(ProductsUpdate(products[..]))]
    {
      var user := User(username, id, role);
      users := users[id := user];
      if IsSeller(role) {
        var i := 0;
        while i < products.Length
          modifies products
          invariant 0 <= i <= products.Length
          invariant forall k :: 0 <= k < i && Catalog.Unowned(old(products[k])) ==>
                      products[k] == old(products[k]).(sellerId := Some(id))
          invariant forall k :: 0 <= k < i && !Catalog.Unowned(old(products[k])) ==> products[k] == old(products[k])
          invariant forall k :: i <= k < products.Length ==> products[k] == old(products[k])
        {
          if products[i].sellerId.None? {
            products[i] := products[i].(sellerId := Some(id));
          }
          i := i + 1;
        }
      }
      out := [Broadcast(UserList(users)), Broadcast(UserJoined(user)), Broadcast(ProductsUpdate(products[..]))];
    }

    /** `send_message` */
    method OnSendMessage(id: ConnId, payload: map<string, string>, clock: Clock) returns (out: seq<Delivery>)
      requires Valid()
      modifies this
      ensures Valid()
      ensures messages == MessageLog.Append(old(messages), Routing.ChatRecord(old(users), id, payload, clock))
      ensures users == old(users) && typing == old(typing)
      ensures out == [Broadcast(ReceiveMessage(Routing.ChatRecord(old(users), id, payload, clock)))]
    {
      var message := Routing.ChatRecord(users, id, payload, clock);
      messages := messages + [message];
      if |messages| > MessageLog.MaxMessages {
        messages := messages[1..];
      }
      out := [Broadcast(ReceiveMessage(message))];
    }

    /** `typing` */
    method OnTyping(id: ConnId, isTyping: bool) returns (out: seq<Delivery>)
      requires Valid()
      modifies this
      ensures Valid()
      ensures users == old(users) && messages == old(messages)
      ensures id !in old(users) ==> typing == old(typing) && out == []
      ensures id in old(users) && isTyping ==> typing == old(typing)[id := old(users)[id].username]
      ensures id in old(users) && !isTyping ==> typing == old(typing) - {id}
      ensures id in old(users) ==> out == [Broadcast(TypingUsers(typing))]
    {
      out := [];
      if id in users {
        var username := users[id].username;
        if isTyping {
          typing := typing[id := username];
        } else {
          typing := typing - {id};
        }
        out := [Broadcast(TypingUsers(typing))];
      }
    }

    /** `private_message` */
    method OnPrivateMessage(id: ConnId, to: string, message: string, clock: Clock) returns (out: seq<Delivery>)
      ensures out == Routing.PrivateDeliveries(users, id, to, message, clock)
    {
      var note := Routing.PrivateNote(users, id, message, clock);
      out := [ToRoom(to, PrivateMessage(note)), ToSender(PrivateMessage(note))];
    }

    /** `product_inquiry` */
    method OnProductInquiry(id: ConnId, productId: int, message: string, clock: Clock) returns (out: seq<Delivery>)
      ensures out == Routing.InquiryDeliveries(products[..], users, id, productId, message, clock)
    {
      var i := 0;
      while i < products.Length && products[i].id != productId
        invariant 0 <= i <= products.Length
        invariant forall j :: 0 <= j < i ==> products[j].id != productId
      {
        i := i + 1;
      }
      if i < products.Length && products[i].sellerId.Some? {
        var inquiry := Routing.InquiryRecord(users, id, productId, message, clock);
        out := [ToRoom(products[i].sellerId.value, ProductInquiry(inquiry)), ToSender(ProductInquiry(inquiry))];
      } else {
        out := [];
      }
    }

    /** `seller_response` */
    method OnSellerResponse(id: ConnId, customerId: string, productId: int, message: string, clock: Clock)
      returns (out: seq<Delivery>)
      ensures out == Routing.ResponseDeliveries(users, id, customerId, productId, message, clock)
    {
      var response := Routing.ResponseRecord(users, id, productId, message, clock);
      out := [ToRoom(customerId, SellerResponse(response)), ToSender(SellerResponse(response))];
    }

    /** `disconnect` */
    method OnDisconnect(id: ConnId) returns (out: seq<Delivery>)
      requires Valid()
      modifies this, products
      ensures Valid()
      ensures users == old(users) - {id} && typing == old(typing) - {id}
      ensures messages == old(messages)
      ensures products[..] == Catalog.AfterLeave(old(products[..]), old(users), id)
      ensures id in old(users) && IsSeller(old(users)[id].role) ==> !Catalog.OwnsAny(products[..], id)
      ensures old(OwnersAreSellers()) ==> OwnersAreSellers()
      ensures out == (if id !in old(users) then []
                      else (if IsSeller(old(users)[id].role) then [Broadcast(ProductsUpdate(products[..]))] else [])
                           + [Broadcast(UserLeft(old(users)[id]))])
                     + [Broadcast(UserList(users)), Broadcast(TypingUsers(typing))]
    {
      out := [];
      if id in users {
        var user := users[id];
        if IsSeller(user.role) {
          var i := 0;
          while i < products.Length
            modifies products
            invariant 0 <= i <= products.Length
            invariant forall k :: 0 <= k < i && old(products[k]).sellerId == Some(id) ==>
                        products[k] == old(products[k]).(sellerId := None)
            invariant forall k :: 0 <= k < i && old(products[k]).sellerId != Some(id) ==> products[k] == old(products[k])
            invariant forall k :: i <= k < products.Length ==> products[k] == old(products[k])
          {
            if products[i].sellerId == Some(id) {
              products[i] := products[i].(sellerId := None);
            }
            i := i + 1;
          }
          out := out + [Broadcast(ProductsUpdate(products[..]))];
        }
        out := out + [Broadcast(UserLeft(User(user.username, id, user.role)))];
      }
      users := users - {id};
      typing := typing - {id};
      out := out + [Broadcast(UserList(users)), Broadcast(TypingUsers(typing))];
    }
  }
}
