/** Event sequences stepped through on the server, asserting what each client receives. */
module Scenarios {
  import opened Wrappers
  import opened Records
  import opened Transport
  import Catalog
  import Routing
  import ChatServer

  /**
   * A seller joins, a customer asks about product 1 and the seller answers:
   * both parties receive the inquiry and then the response.
   */
  method InquiryRoundTrip(s: ConnId, c: ConnId, clock: Clock)
    requires s != c
  {
    var server := new ChatServer.Server();
    var connected := {s, c};
    var _ := server.OnUserJoin(s, "sam", "seller");
    assert server.products[0].sellerId == Some(s);
    var _ := server.OnUserJoin(c, "cat", "customer");
    assert server.products[..][0].id == 1;
    assert Catalog.FirstWithId(server.products[..], 1) == Some(0);

    var asked := server.OnProductInquiry(c, 1, "is this available?", clock);
    var inquiry := ProductInquiry(Inquiry(clock.millis, 1, c, "cat", "is this available?", clock.iso));
    Routing.InquiryRouting(server.products[..], server.users, c, 1, "is this available?", clock, connected, s);
    Routing.InquiryRouting(server.products[..], server.users, c, 1, "is this available?", clock, connected, c);
    assert Inbox(asked, c, connected, s) == [inquiry];
    assert Inbox(asked, c, connected, c) == [inquiry];

    var answered := server.OnSellerResponse(s, c, 1, "yes", clock);
    var response := SellerResponse(Response(clock.millis, 1, s, "sam", "yes", clock.iso));
    Routing.ResponseRouting(server.users, s, c, 1, "yes", clock, connected, c);
    Routing.ResponseRouting(server.users, s, c, 1, "yes", clock, connected, s);
    assert Inbox(answered, s, connected, c) == [response];
    assert Inbox(answered, s, connected, s) == [response];
  }

  /** The first seller to join claims all three products; a second seller claims none. */
  method FirstSellerClaimsAll(a: ConnId, b: ConnId)
    requires a != b
  {
    var server := new ChatServer.Server();
    var _ := server.OnUserJoin(a, "ann", "seller");
    Catalog.InitialSellerOwnsAll(a);
    assert forall k :: 0 <= k < 3 ==> server.products[k].sellerId == Some(a);
    ghost var before := server.products[..];
    var _ := server.OnUserJoin(b, "bob", "seller");
    Catalog.FirstSellerWins(Catalog.InitialCatalog, a, b);
    assert server.products[..] == before;
    assert !Catalog.OwnsAny(server.products[..], b);

    var _ := server.OnDisconnect(a);
    assert forall k :: 0 <= k < 3 ==> server.products[k].sellerId.None?;
  }

  /** Another client sees a seller's join as the run of its three broadcasts. */
  method JoinBroadcasts(a: ConnId, b: ConnId)
    requires a != b
  {
    var server := new ChatServer.Server();
    var joined := server.OnUserJoin(a, "ann", "seller");
    ghost var inbox := Inbox(joined, a, {a, b}, b);
    BroadcastsReachAll(joined, a, {a, b}, b);
    assert inbox == Events(joined) && |inbox| == 3;
  }

  /** The client left behind sees a seller's disconnect as the run of its four broadcasts. */
  method LeaveBroadcasts(a: ConnId, b: ConnId)
    requires a != b
  {
    var server := new ChatServer.Server();
    var _ := server.OnUserJoin(a, "ann", "seller");
    var left := server.OnDisconnect(a);
    ghost var inbox := Inbox(left, a, {b}, b);
    BroadcastsReachAll(left, a, {b}, b);
    assert inbox == Events(left) && |inbox| == 4;
  }
}
