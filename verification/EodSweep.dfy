/** The end-of-day sweep: expire every active order, one transaction each. */
module EodSweep {
  import opened Domain
  import opened OrderSpec
  import opened Reservations
  import opened CashAccounts
  import opened OrderServices

  /** Some orders expired. */
  function ExpireSome(orders: map<Id, Order>, ids: set<Id>): map<Id, Order> {
    map id | id in orders :: if id in ids then orders[id].(status := EXPIRED) else orders[id]
  }

  lemma ExpireOneMore(orders: map<Id, Order>, ids: set<Id>, id: Id)
    requires id in orders && id !in ids
    ensures ExpireSome(orders, ids + {id}) == ExpireSome(orders, ids)[id := orders[id].(status := EXPIRED)]
    ensures ExpireSome(orders, ids)[id] == orders[id]
  {}

  function ActiveIds(orders: map<Id, Order>): set<Id> {
    set id | id in orders && Active(orders[id].status)
  }

  class EodSweepService {
    const orderService: OrderService

    constructor (service: OrderService)
      ensures orderService == service
    {
      orderService := service;
    }

    /** Expires all active orders and counts the successes. Nothing is placed meanwhile. Afterwards no order is
        active and nothing is locked any more, and no single expiry failed. */
    method ExecuteSweep() returns (expired: nat)
      requires Shape(orderService.db.State()) && Laws(orderService.db.State())
      modifies orderService.db
      ensures Shape(orderService.db.State()) && Laws(orderService.db.State())
      ensures orderService.db.orders == ExpireSome(old(orderService.db.orders), ActiveIds(old(orderService.db.orders)))
      ensures forall pid | pid in orderService.db.portfolios && !orderService.db.portfolios[pid].isMarginEnabled ::
                orderService.db.portfolios[pid].lockedCash == 0.0
      ensures forall h | h in orderService.db.positions :: orderService.db.positions[h].locked == 0.0
      ensures expired == |ActiveIds(old(orderService.db.orders))|
    {
      hide Shape, Laws, End;
      var db := orderService.db;
      ghost var before := db.orders;
      var active := ActiveIds(db.orders);
      var remaining := active;
      expired := 0;
      while remaining != {}
        invariant remaining <= active && expired == |active| - |remaining|
        invariant Shape(db.State()) && Laws(db.State())
        invariant db.orders == ExpireSome(before, active - remaining)
        decreases |remaining|
      {
        SomeMember(remaining);
        var id :| id in remaining;
        ghost var now := db.State();
        ExpireOneMore(before, active - remaining, id);
        assert active - (remaining - {id}) == (active - remaining) + {id};
        hide ExpireSome;
        EndSucceeds(now, id, EXPIRED);
        EndKeepsShape(now, id, EXPIRED);
        EndKeepsLaws(now, id, EXPIRED);
        var r := orderService.ExpireOrder(id);
        remaining := remaining - {id};
        if r.Ok? { expired := expired + 1; }
      }
      assert active - remaining == active;
      NothingActiveNothingLocked(db.State());
    }
  }
}
