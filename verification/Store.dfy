/** The database the services write to: one mutable object whose fields are the tables. */
module Store {
  import opened Domain

  class Database {
    var portfolios: map<Id, Portfolio>
    var positions: map<Holding, Position>
    var orders: map<Id, Order>
    var byKey: map<(Id, IdempotencyKey), Id>
    var fills: map<FillKey, Fill>
    var ledger: seq<Entry>

    constructor (db: Db)
      ensures State() == db
    {
      portfolios, positions, orders := db.portfolios, db.positions, db.orders;
      byKey, fills, ledger := db.byKey, db.fills, db.ledger;
    }

    /** The committed tables as one value. */
    function State(): (db: Db)
      reads this
      ensures db.portfolios == portfolios && db.positions == positions && db.orders == orders
      ensures db.byKey == byKey && db.fills == fills && db.ledger == ledger
    {
      Db(portfolios, positions, orders, byKey, fills, ledger)
    }

    /** Rolling a transaction back. */
    method Restore(saved: Db)
      modifies this
      ensures State() == saved
    {
      portfolios, positions, orders := saved.portfolios, saved.positions, saved.orders;
      byKey, fills, ledger := saved.byKey, saved.fills, saved.ledger;
    }

    method SetOrder(o: Order)
      modifies this
      ensures State() == old(State()).(orders := old(orders)[o.id := o])
    {
      orders := orders[o.id := o];
    }

    method SetPortfolio(id: Id, p: Portfolio)
      modifies this
      ensures State() == old(State()).(portfolios := old(portfolios)[id := p])
    {
      portfolios := portfolios[id := p];
    }

    method SetPosition(h: Holding, pos: Position)
      modifies this
      ensures State() == old(State()).(positions := old(positions)[h := pos])
    {
      positions := positions[h := pos];
    }
  }
}
