/** The order ledger: the record, keyed by order id, of every order the bot
    itself placed. The bot keeps it in a JSON file; here it is an in-memory map.
    An id the ledger does not know belongs to someone else and is left alone. */
module OrderLedger {
  import opened GridTypes

  /** Looking an id up: the recorded (side, price, pos_side) or nothing. */
  function Lookup(m: map<string, OrderInfo>, id: string): (r: Option<OrderInfo>)
    ensures r.None? <==> id !in m
    ensures r.Some? ==> id in m && m[id] == r.value
  {
    if id in m then Some(m[id]) else None
  }

  /** The ledger after recording `info` under `id`: that id now answers `info`,
      every other id answers what it answered before. */
  function Saved(m: map<string, OrderInfo>, id: string, info: OrderInfo): (r: map<string, OrderInfo>)
    ensures Lookup(r, id) == Some(info)
    ensures forall k :: k != id ==> Lookup(r, k) == Lookup(m, k)
    ensures r.Keys == m.Keys + {id}
  {
    m[id := info]
  }

  class Ledger {
    var orders: map<string, OrderInfo>

    /** A fresh process starts with an empty ledger. */
    constructor ()
      ensures orders == map[]
    {
      orders := map[];
    }

    /** Records the order `id` with its side, price and position side. */
    method SaveOrderInfo(side: Direction, id: string, price: int, posSide: PosSide)
      modifies this
      ensures orders == Saved(old(orders), id, OrderInfo(side, price, posSide))
    {
      orders := orders[id := OrderInfo(side, price, posSide)];
    }

    /** The recorded (side, price, pos_side) of `id`, or nothing for an id never saved. */
    function GetOrderInfo(id: string): (r: Option<OrderInfo>)
      reads this
      ensures r.Some? <==> id in orders
      ensures r.Some? ==> r.value == orders[id]
    {
      Lookup(orders, id)
    }
  }
}
