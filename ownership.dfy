/**
 * The ownership invariant: every owned product is owned by a connection
 * registered with the seller role. `user_join` and `disconnect` keep it,
 * except when a connection that owns products re-joins with another role.
 */
module Ownership {
  import opened Wrappers
  import opened Records
  import opened Catalog

  predicate OwnersAreSellers(ps: seq<Product>, users: map<ConnId, User>) {
    forall k :: 0 <= k < |ps| && ps[k].sellerId.Some? ==>
      ps[k].sellerId.value in users && IsSeller(users[ps[k].sellerId.value].role)
  }

  /** A join keeps the invariant unless an owner re-joins without the seller role. */
  lemma JoinKeepsOwners(ps: seq<Product>, users: map<ConnId, User>, u: User)
    requires OwnersAreSellers(ps, users)
    requires IsSeller(u.role) || !OwnsAny(ps, u.id)
    ensures OwnersAreSellers(AfterJoin(ps, u.id, u.role), users[u.id := u])
  {
  }

  /** A disconnect always keeps the invariant. */
  lemma LeaveKeepsOwners(ps: seq<Product>, users: map<ConnId, User>, id: ConnId)
    requires OwnersAreSellers(ps, users)
    ensures OwnersAreSellers(AfterLeave(ps, users, id), users - {id})
  {
  }

  /**
   * A seller that re-joins as a customer and then disconnects keeps every
   * product it claimed, though it is no longer registered: `disconnect`
   * releases products only for the role recorded at the last join.
   */
  lemma RejoinAsCustomerKeepsOwnership(ps: seq<Product>, users: map<ConnId, User>, id: ConnId,
                                                         name: string, k: nat)
    requires k < |ps| && Unowned(ps[k])
    ensures var seller := User(name, id, "seller");
            var customer := User(name, id, "customer");
            var claimed := AfterJoin(ps, id, seller.role);
            var users' := users[id := seller][id := customer];
            var left := AfterLeave(AfterJoin(claimed, id, customer.role), users', id);
            left[k].sellerId == Some(id) && id !in users' - {id} && !OwnersAreSellers(left, users' - {id})
  {
  }
}
