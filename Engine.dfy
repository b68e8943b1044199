/** The grid order-state engine: what the order listener does with each order
    update. The pure function `React` says what one event does; the class
    `Engine` holds the bot's per-side globals and carries it out step by step. */
module GridEngine {
  import opened GridTypes
  import opened OrderLedger
  import opened GridPrices
  import opened Placement

  datatype EngineState = EngineState(long: SideState, short: SideState)

  /** What one event does: both sides' new state, the cancels sent (in order),
      and the orders placed (in order). */
  datatype Reaction = Reaction(state: EngineState, cancels: seq<CancelRequest>, placements: seq<OrderRequest>)

  /** What a fill does to the side it belongs to. */
  datatype SideReaction = SideReaction(state: SideState, cancels: seq<CancelRequest>, placements: seq<OrderRequest>)

  // ---------------------------------------------------------------------------
  // Reconciliation
  // ---------------------------------------------------------------------------

  /** Whether the listed order `o` is one the engine cancels when clearing the
      leg (side, posSide); with `checkLedger` it must also be in the ledger. */
  predicate IsStale(o: OpenOrder, side: string, posSide: string, ledger: map<string, OrderInfo>, checkLedger: bool) {
    o.side == side && o.posSide == posSide && (!checkLedger || o.ordId in ledger)
  }

  function CancelOf(o: OpenOrder): CancelRequest {
    CancelRequest(o.ordId, o.instId)
  }

  /** The positions of the stale orders in the list, in increasing order. */
  function StaleIndices(open: seq<OpenOrder>, side: string, posSide: string,
                        ledger: map<string, OrderInfo>, checkLedger: bool): (idx: seq<int>)
    ensures |idx| <= |open|
    ensures forall k :: 0 <= k < |idx| ==> 0 <= idx[k] < |open| && IsStale(open[idx[k]], side, posSide, ledger, checkLedger)
    ensures forall j, k :: 0 <= j < k < |idx| ==> idx[j] < idx[k]
    ensures forall i :: 0 <= i < |open| && IsStale(open[i], side, posSide, ledger, checkLedger) ==> i in idx
    decreases |open|
  {
    if open == [] then []
    else
      var rest := StaleIndices(open[..|open| - 1], side, posSide, ledger, checkLedger);
      if IsStale(open[|open| - 1], side, posSide, ledger, checkLedger) then rest + [|open| - 1] else rest
  }

  /** The cancels sent for the listed orders, in list order: exactly one for
      each stale order, at its position, and none for any other. */
  function StaleCancels(open: seq<OpenOrder>, side: string, posSide: string,
                        ledger: map<string, OrderInfo>, checkLedger: bool): (r: seq<CancelRequest>)
    ensures var idx := StaleIndices(open, side, posSide, ledger, checkLedger);
            |r| == |idx| && forall k :: 0 <= k < |r| ==> r[k] == CancelOf(open[idx[k]])
    decreases |open|
  {
    if open == [] then []
    else
      var n := |open| - 1;
      var rest := StaleCancels(open[..n], side, posSide, ledger, checkLedger);
      var o := open[n];
      assert forall i :: 0 <= i < n ==> open[..n][i] == open[i];
      if IsStale(o, side, posSide, ledger, checkLedger) then rest + [CancelOf(o)] else rest
  }

  /** Soundness and completeness of reconciliation: every cancel is for a stale
      listed order, and every stale listed order is cancelled. */
  lemma StaleCancelsExact(open: seq<OpenOrder>, side: string, posSide: string,
                          ledger: map<string, OrderInfo>, checkLedger: bool)
    ensures var r := StaleCancels(open, side, posSide, ledger, checkLedger);
            && (forall c :: c in r ==>
                  exists i :: 0 <= i < |open| && IsStale(open[i], side, posSide, ledger, checkLedger) && c == CancelOf(open[i]))
            && (forall i :: 0 <= i < |open| && IsStale(open[i], side, posSide, ledger, checkLedger) ==> CancelOf(open[i]) in r)
  {
    var r := StaleCancels(open, side, posSide, ledger, checkLedger);
    var idx := StaleIndices(open, side, posSide, ledger, checkLedger);
    forall c | c in r
      ensures exists i :: 0 <= i < |open| && IsStale(open[i], side, posSide, ledger, checkLedger) && c == CancelOf(open[i])
    {
      var k :| 0 <= k < |r| && r[k] == c;
      assert IsStale(open[idx[k]], side, posSide, ledger, checkLedger);
    }
    forall i | 0 <= i < |open| && IsStale(open[i], side, posSide, ledger, checkLedger)
      ensures CancelOf(open[i]) in r
    {
      var k :| 0 <= k < |idx| && idx[k] == i;
      assert r[k] == CancelOf(open[i]);
    }
  }

  /** Foreign-order isolation: when the ledger is consulted, no cancel names an
      id the ledger does not know, whatever the listed order's side or price. */
  lemma CancelsOnlyOwnOrders(open: seq<OpenOrder>, side: string, posSide: string, ledger: map<string, OrderInfo>)
    ensures forall c :: c in StaleCancels(open, side, posSide, ledger, true) ==> c.ordId in ledger
  {
    StaleCancelsExact(open, side, posSide, ledger, true);
    forall c | c in StaleCancels(open, side, posSide, ledger, true)
      ensures c.ordId in ledger
    {
      var i :| 0 <= i < |open| && IsStale(open[i], side, posSide, ledger, true) && c == CancelOf(open[i]);
    }
  }

  /** The loop over the pending-order list that issues the cancels of one leg. */
  method ReconcileCancels(open: seq<OpenOrder>, side: string, posSide: string,
                          ledger: map<string, OrderInfo>, checkLedger: bool) returns (cancels: seq<CancelRequest>)
    ensures cancels == StaleCancels(open, side, posSide, ledger, checkLedger)
  {
    cancels := [];
    for i := 0 to |open|
      invariant cancels == StaleCancels(open[..i], side, posSide, ledger, checkLedger)
    {
      var order := open[i];
      assert open[..i + 1][..i] == open[..i];
      if order.side == side && order.posSide == posSide {
        if !checkLedger || Lookup(ledger, order.ordId).Some? {
          cancels := cancels + [CancelRequest(order.ordId, order.instId)];
        }
      }
    }
    assert open[..|open|] == open;
  }

  // ---------------------------------------------------------------------------
  // One event
  // ---------------------------------------------------------------------------

  /** The event filter: the bot's instrument, an id the ledger knows, and a
      completed fill of positive size. */
  predicate PassesFilter(e: OrderEvent, ledger: map<string, OrderInfo>) {
    e.instId == InstId && e.ordId in ledger && e.state == "filled" && e.filledLots > 0
  }

  /** The grid the event is handled by: its position side, if that side's grid is enabled. */
  function GridOf(cfg: Config, e: OrderEvent): Option<PosSide> {
    if e.posSide == "long" && cfg.long.enabled then Some(Long)
    else if e.posSide == "short" && cfg.short.enabled then Some(Short)
    else None
  }

  function ConfigOf(cfg: Config, ps: PosSide): SideConfig {
    match ps
    case Long => cfg.long
    case Short => cfg.short
  }

  function StateOf(st: EngineState, ps: PosSide): SideState {
    match ps
    case Long => st.long
    case Short => st.short
  }

  function WithSide(st: EngineState, ps: PosSide, s: SideState): EngineState {
    match ps
    case Long => st.(long := s)
    case Short => st.(short := s)
  }

  /** The opening leg of side `ps` quoted from the price pair: a long grid buys at
      the lower price, a short grid sells at the upper one. */
  function OpeningOrder(ps: PosSide, sc: SideConfig, prices: (int, int)): OrderRequest {
    OrderRequest(ps.Opening(), if ps == Long then prices.0 else prices.1, sc.gridSize, ps, false)
  }

  /** The reduce-only closing leg of side `ps`: a long grid sells at the upper
      price, a short grid buys at the lower one. */
  function ClosingOrder(ps: PosSide, sc: SideConfig, prices: (int, int)): OrderRequest {
    OrderRequest(ps.Closing(), if ps == Long then prices.1 else prices.0, sc.gridSize, ps, true)
  }

  /** A fill on grid `ps`, branch by branch as the listener handles it. Only the
      short grid's opening branch cancels without consulting the ledger. */
  function SideReact(ps: PosSide, sc: SideConfig, s: SideState, ledger: map<string, OrderInfo>,
                     e: OrderEvent, open: seq<OpenOrder>, prices: (int, int)): SideReaction
  {
    if e.side == ps.Opening().Name() then
      var position := s.position + e.filledLots;
      if position < sc.maxPosition then
        SideReaction(SideState(position, e.priceCents, s.takeProfitCount),
                     StaleCancels(open, ps.Closing().Name(), ps.Name(), ledger, ps == Long),
                     [OpeningOrder(ps, sc, prices), ClosingOrder(ps, sc, prices)])
      else
        SideReaction(SideState(position, s.trigger, s.takeProfitCount),
                     StaleCancels(open, ps.Closing().Name(), ps.Name(), ledger, true),
                     [ClosingOrder(ps, sc, prices)])
    else if e.side == ps.Closing().Name() then
      SideReaction(SideState(s.position - e.filledLots, e.priceCents, s.takeProfitCount + 1),
                   StaleCancels(open, ps.Opening().Name(), ps.Name(), ledger, true),
                   [OpeningOrder(ps, sc, prices), ClosingOrder(ps, sc, prices)])
    else
      SideReaction(s, [], [])
  }

  /** One order update: filtered, then handled by the grid of its position side.
      `open` is the venue's pending-order list as the listener queries it. */
  function React(cfg: Config, st: EngineState, ledger: map<string, OrderInfo>,
                 e: OrderEvent, open: seq<OpenOrder>): (r: Reaction)
    requires ValidConfig(cfg)
    ensures |r.placements| <= 2
  {
    if !PassesFilter(e, ledger) then Reaction(st, [], [])
    else
      match GridOf(cfg, e)
      case None => Reaction(st, [], [])
      case Some(ps) =>
        var prices := CalculateGridPrices(e.priceCents, e.posSide, cfg);
        var sr := SideReact(ps, ConfigOf(cfg, ps), StateOf(st, ps), ledger, e, open, prices);
        Reaction(WithSide(st, ps, sr.state), sr.cancels, sr.placements)
  }

  /** A message from the private websocket: its `arg.channel` and, when
      present, its `data` list. */
  datatype Message = Message(channel: string, data: Option<seq<OrderEvent>>)

  /** The order updates the listener walks through: the data of an `orders`
      channel message, nothing for any other message. */
  function EventsOf(msg: Message): seq<OrderEvent> {
    if msg.data.Some? && msg.channel == "orders" then msg.data.value else []
  }

  /** Enough venue inputs for `count` events: a pending-order list and two
      placement answers for each. */
  predicate InputsFor(count: nat, opens: seq<seq<OpenOrder>>, resps: seq<seq<PlaceResponse>>) {
    count <= |opens| && count <= |resps| && forall i :: 0 <= i < count ==> |resps[i]| >= 2
  }

  /** The state and ledger after reacting to `events` in order, the i-th seeing
      the pending-order list opens[i] and the placement answers resps[i]. */
  function ReactAll(cfg: Config, st: EngineState, m: map<string, OrderInfo>, events: seq<OrderEvent>,
                    opens: seq<seq<OpenOrder>>, resps: seq<seq<PlaceResponse>>): (EngineState, map<string, OrderInfo>)
    requires ValidConfig(cfg) && InputsFor(|events|, opens, resps)
    decreases |events|
  {
    if events == [] then (st, m)
    else
      var n := |events| - 1;
      var (st', m') := ReactAll(cfg, st, m, events[..n], opens, resps);
      var r := React(cfg, st', m', events[n], opens[n]);
      (r.state, RecordAll(m', r.placements, resps[n]))
  }

  // ---------------------------------------------------------------------------
  // The engine object
  // ---------------------------------------------------------------------------

  /** The bot's per-side globals and its ledger. */
  class Engine {
    const cfg: Config
    const ledger: Ledger
    var longPosition: int
    var longTrigger: int
    var longTakeProfitCount: nat
    var shortPosition: int
    var shortTrigger: int
    var shortTakeProfitCount: nat

    function State(): EngineState
      reads this
    {
      EngineState(SideState(longPosition, longTrigger, longTakeProfitCount),
                  SideState(shortPosition, shortTrigger, shortTakeProfitCount))
    }

    constructor (cfg: Config, ledger: Ledger, start: EngineState)
      requires ValidConfig(cfg)
      ensures this.cfg == cfg && this.ledger == ledger && State() == start
    {
      this.cfg := cfg;
      this.ledger := ledger;
      longPosition, longTrigger, longTakeProfitCount := start.long.position, start.long.trigger, start.long.takeProfitCount;
      shortPosition, shortTrigger, shortTakeProfitCount := start.short.position, start.short.trigger, start.short.takeProfitCount;
    }

    /** One order update. `open` is what the pending-order query returns and
        `responses[i]` is the venue's answer to the i-th placement. */
    method OnFill(e: OrderEvent, open: seq<OpenOrder>, responses: seq<PlaceResponse>)
      returns (cancels: seq<CancelRequest>, placed: seq<OrderRequest>, ids: seq<Option<string>>)
      requires ValidConfig(cfg) && |responses| >= 2
      modifies this, ledger
      ensures var r := React(cfg, old(State()), old(ledger.orders), e, open);
              && State() == r.state
              && cancels == r.cancels
              && placed == r.placements
      ensures |ids| == |placed| && forall i :: 0 <= i < |ids| ==> ids[i] == PlacedId(responses[i])
      ensures ledger.orders == RecordAll(old(ledger.orders), placed, responses)
    {
      cancels, placed, ids := [], [], [];
      if e.instId != InstId {
        return;
      }
      if ledger.GetOrderInfo(e.ordId).None? {
        return;
      }
      if !(e.state == "filled" && e.filledLots > 0) {
        return;
      }
      var prices := CalculateGridPrices(e.priceCents, e.posSide, cfg);
      if e.posSide == "long" && cfg.long.enabled {
        cancels, placed := OnLongFill(e, open, prices);
      } else if e.posSide == "short" && cfg.short.enabled {
        cancels, placed := OnShortFill(e, open, prices);
      }
      ids := PlaceLegs(placed, responses);
    }

    /** The listener's handling of one message: each order update of an
        `orders` message in turn. */
    method ProcessMessage(msg: Message, opens: seq<seq<OpenOrder>>, resps: seq<seq<PlaceResponse>>)
      requires ValidConfig(cfg) && InputsFor(|EventsOf(msg)|, opens, resps)
      modifies this, ledger
      ensures (State(), ledger.orders) == ReactAll(cfg, old(State()), old(ledger.orders), EventsOf(msg), opens, resps)
    {
      if msg.data.Some? && msg.channel == "orders" {
        var events := msg.data.value;
        for i := 0 to |events|
          invariant (State(), ledger.orders) == ReactAll(cfg, old(State()), old(ledger.orders), events[..i], opens, resps)
        {
          assert events[..i + 1][..i] == events[..i];
          var _, _, _ := OnFill(events[i], opens[i], resps[i]);
        }
        assert events[..|events|] == events;
      }
    }

    /** The long grid's branches: opening buy (below or at the ceiling) and closing sell. */
    method OnLongFill(e: OrderEvent, open: seq<OpenOrder>, prices: (int, int))
      returns (cancels: seq<CancelRequest>, placed: seq<OrderRequest>)
      modifies this
      ensures var sr := SideReact(Long, cfg.long, old(State()).long, ledger.orders, e, open, prices);
              && State() == WithSide(old(State()), Long, sr.state)
              && cancels == sr.cancels && placed == sr.placements
    {
      var (buyPrice, closePrice) := prices;
      var size := cfg.long.gridSize;
      cancels, placed := [], [];
      if e.side == "buy" {
        longPosition := longPosition + e.filledLots;
        if longPosition < cfg.long.maxPosition {
          longTrigger := e.priceCents;
          cancels := ReconcileCancels(open, "sell", "long", ledger.orders, true);
          placed := [OrderRequest(Buy, buyPrice, size, Long, false), OrderRequest(Sell, closePrice, size, Long, true)];
        } else {
          cancels := ReconcileCancels(open, "sell", "long", ledger.orders, true);
          placed := [OrderRequest(Sell, closePrice, size, Long, true)];
        }
      } else if e.side == "sell" {
        longPosition := longPosition - e.filledLots;
        longTrigger := e.priceCents;
        longTakeProfitCount := longTakeProfitCount + 1;
        cancels := ReconcileCancels(open, "buy", "long", ledger.orders, true);
        placed := [OrderRequest(Buy, buyPrice, size, Long, false), OrderRequest(Sell, closePrice, size, Long, true)];
      }
    }

    /** The short grid's branches: opening sell (below or at the ceiling) and
        closing buy. The opening branch below the ceiling cancels without a
        ledger check. */
    method OnShortFill(e: OrderEvent, open: seq<OpenOrder>, prices: (int, int))
      returns (cancels: seq<CancelRequest>, placed: seq<OrderRequest>)
      modifies this
      ensures var sr := SideReact(Short, cfg.short, old(State()).short, ledger.orders, e, open, prices);
              && State() == WithSide(old(State()), Short, sr.state)
              && cancels == sr.cancels && placed == sr.placements
    {
      var (buyPrice, closePrice) := prices;
      var size := cfg.short.gridSize;
      cancels, placed := [], [];
      if e.side == "sell" {
        shortPosition := shortPosition + e.filledLots;
        if shortPosition < cfg.short.maxPosition {
          shortTrigger := e.priceCents;
          cancels := ReconcileCancels(open, "buy", "short", ledger.orders, false);
          placed := [OrderRequest(Sell, closePrice, size, Short, false), OrderRequest(Buy, buyPrice, size, Short, true)];
        } else {
          cancels := ReconcileCancels(open, "buy", "short", ledger.orders, true);
          placed := [OrderRequest(Buy, buyPrice, size, Short, true)];
        }
      } else if e.side == "buy" {
        shortPosition := shortPosition - e.filledLots;
        shortTrigger := e.priceCents;
        shortTakeProfitCount := shortTakeProfitCount + 1;
        cancels := ReconcileCancels(open, "sell", "short", ledger.orders, true);
        placed := [OrderRequest(Sell, closePrice, size, Short, false), OrderRequest(Buy, buyPrice, size, Short, true)];
      }
    }

    /** The one or two `place_order` calls of a branch, in order, each answered
        by the next venue response. */
    method PlaceLegs(placed: seq<OrderRequest>, responses: seq<PlaceResponse>) returns (ids: seq<Option<string>>)
      requires |placed| <= 2 <= |responses|
      modifies ledger
      ensures |ids| == |placed| && forall i :: 0 <= i < |ids| ==> ids[i] == PlacedId(responses[i])
      ensures ledger.orders == RecordAll(old(ledger.orders), placed, responses)
    {
      ids := [];
      ghost var before := ledger.orders;
      var done: seq<OrderRequest> := [];
      if |placed| >= 1 {
        done, ids := PlaceNext(ledger, before, done, ids, placed[0], responses);
      }
      if |placed| == 2 {
        done, ids := PlaceNext(ledger, before, done, ids, placed[1], responses);
      }
      assert done == placed;
    }
  }
}
