/** The connect loop: every pass connects, logs in, seeds the initial grid
    while the "orders placed" flag is down, and hands the connection to the
    order listener. */
module StreamDispatcher {
  import opened GridTypes
  import opened GridPrices
  import opened Placement
  import opened GridEngine

  /** How one pass of the connect loop ends. */
  datatype ConnectionEnd =
    | ConnectFailed     // connecting or logging in raised before the seeding step
    | ListenerReturned  // the listener returned after the connection closed
    | ListenerRaised    // an exception escaped after the seeding step

  /** Whether a pass seeds: its login exchange returned (whatever the venue
      answered) and the flag was down. */
  predicate SeedsOn(flag: bool, end: ConnectionEnd) {
    end != ConnectFailed && !flag
  }

  /** The flag after a pass: a normal return keeps it (or sets it, after
      seeding); any exception lowers it. */
  function NextFlag(flag: bool, end: ConnectionEnd): (next: bool)
    ensures next <==> end == ListenerReturned
  {
    match end
    case ConnectFailed => false
    case ListenerRaised => false
    case ListenerReturned => true
  }

  /** The flag after a run of passes from a fresh start. */
  function FlagAfter(ends: seq<ConnectionEnd>): bool {
    if ends == [] then false else NextFlag(FlagAfter(ends[..|ends| - 1]), ends[|ends| - 1])
  }

  /** Pass i of a run seeds exactly when its login exchange returns and it is the
      first pass or the pass before it did not end with the listener returning. */
  lemma SeedingPasses(ends: seq<ConnectionEnd>, i: nat)
    requires i < |ends|
    ensures SeedsOn(FlagAfter(ends[..i]), ends[i]) <==>
            ends[i] != ConnectFailed && (i == 0 || ends[i - 1] != ListenerReturned)
  {
    if i > 0 {
      assert ends[..i][..i - 1] == ends[..i - 1];
    }
  }

  /** One grid's share of the initial orders: nothing if the grid is disabled,
      otherwise its opening and its reduce-only closing leg quoted from its
      current trigger price. */
  function GridSeed(cfg: Config, st: EngineState, ps: PosSide): (orders: seq<OrderRequest>)
    requires ValidConfig(cfg)
  {
    var sc := ConfigOf(cfg, ps);
    if sc.enabled then
      var p := CalculateGridPrices(StateOf(st, ps).trigger, ps.Name(), cfg);
      [OpeningOrder(ps, sc, p), ClosingOrder(ps, sc, p)]
    else []
  }

  /** The orders of `orders` that belong to grid `ps`, in their order. */
  function OfGrid(orders: seq<OrderRequest>, ps: PosSide): seq<OrderRequest>
    decreases |orders|
  {
    if orders == [] then []
    else
      var last := orders[|orders| - 1];
      OfGrid(orders[..|orders| - 1], ps) + (if last.posSide == ps then [last] else [])
  }

  /** Selecting one grid's orders distributes over concatenation. */
  lemma {:induction false} OfGridAppend(a: seq<OrderRequest>, b: seq<OrderRequest>, ps: PosSide)
    ensures OfGrid(a + b, ps) == OfGrid(a, ps) + OfGrid(b, ps)
    decreases |b|
  {
    if b == [] {
      assert a + b == a;
    } else {
      var n := |b| - 1;
      OfGridAppend(a, b[..n], ps);
      assert (a + b)[..|a + b| - 1] == a + b[..n];
      assert (a + b)[|a + b| - 1] == b[n];
    }
  }

  /** Two orders of one grid are selected together or not at all. */
  lemma OfGridPair(x: OrderRequest, y: OrderRequest, qs: PosSide)
    requires x.posSide == y.posSide
    ensures OfGrid([x, y], qs) == if x.posSide == qs then [x, y] else []
  {
    assert [x, y][..1] == [x] && [x][..0] == [];
    assert OfGrid([x], qs) == OfGrid([], qs) + (if x.posSide == qs then [x] else []);
    assert OfGrid([x, y], qs) == OfGrid([x], qs) + (if y.posSide == qs then [y] else []);
  }

  /** A grid's share of the seed holds only orders of that grid. */
  lemma GridSeedOfGrid(cfg: Config, st: EngineState, ps: PosSide, qs: PosSide)
    requires ValidConfig(cfg)
    ensures OfGrid(GridSeed(cfg, st, ps), qs) == if ps == qs then GridSeed(cfg, st, ps) else []
  {
    var sc := ConfigOf(cfg, ps);
    if sc.enabled {
      var p := CalculateGridPrices(StateOf(st, ps).trigger, ps.Name(), cfg);
      OfGridPair(OpeningOrder(ps, sc, p), ClosingOrder(ps, sc, p), qs);
    }
  }

  /** The initial grid: the long grid's orders, then the short grid's. Each
      grid has exactly its opening leg and its reduce-only closing leg, both
      of its grid size and quoted from its current trigger price, when it is
      enabled, and no order when it is disabled. */
  function SeedOrders(cfg: Config, st: EngineState): (orders: seq<OrderRequest>)
    requires ValidConfig(cfg)
    ensures orders == OfGrid(orders, Long) + OfGrid(orders, Short)
    ensures OfGrid(orders, Long) == GridSeed(cfg, st, Long)
    ensures OfGrid(orders, Short) == GridSeed(cfg, st, Short)
    ensures |orders| == (if cfg.long.enabled then 2 else 0) + (if cfg.short.enabled then 2 else 0)
    ensures forall o :: o in orders ==> ConfigOf(cfg, o.posSide).enabled
    ensures forall o :: o in orders ==> o.size == ConfigOf(cfg, o.posSide).gridSize
    ensures forall o :: o in orders ==> (o.reduceOnly <==> o.side == o.posSide.Closing())
  {
    var l, s := GridSeed(cfg, st, Long), GridSeed(cfg, st, Short);
    OfGridAppend(l, s, Long);
    OfGridAppend(l, s, Short);
    GridSeedOfGrid(cfg, st, Long, Long);
    GridSeedOfGrid(cfg, st, Long, Short);
    GridSeedOfGrid(cfg, st, Short, Long);
    GridSeedOfGrid(cfg, st, Short, Short);
    l + s
  }

  /** With non-negative triggers every seed buy is at or below its side's
      trigger and every seed sell at or above it. */
  lemma SeedQuotesBracketTrigger(cfg: Config, st: EngineState)
    requires ValidConfig(cfg) && st.long.trigger >= 0 && st.short.trigger >= 0
    ensures forall o :: o in SeedOrders(cfg, st) ==>
              && (o.side == Buy ==> o.price <= StateOf(st, o.posSide).trigger)
              && (o.side == Sell ==> o.price >= StateOf(st, o.posSide).trigger)
  {
    GridPricesBracket(st.long.trigger, "long", cfg);
    GridPricesBracket(st.short.trigger, "short", cfg);
  }

  class Dispatcher {
    const engine: Engine
    var isOrderPlaced: bool

    constructor (engine: Engine)
      ensures this.engine == engine && !isOrderPlaced
    {
      this.engine := engine;
      isOrderPlaced := false;
    }

    /** One pass of the connect loop, ending as `end`. `responses[i]` answers
        the i-th seed placement. The listener's work in between is
        `Engine.ProcessMessage`, once per message. */
    method Connect(end: ConnectionEnd, responses: seq<PlaceResponse>)
      returns (seeded: seq<OrderRequest>, ids: seq<Option<string>>)
      requires ValidConfig(engine.cfg) && |responses| >= 4
      modifies this, engine.ledger
      ensures seeded == if SeedsOn(old(isOrderPlaced), end) then SeedOrders(engine.cfg, engine.State()) else []
      ensures |ids| == |seeded| && forall i :: 0 <= i < |ids| ==> ids[i] == PlacedId(responses[i])
      ensures engine.ledger.orders == RecordAll(old(engine.ledger.orders), seeded, responses)
      ensures isOrderPlaced == NextFlag(old(isOrderPlaced), end)
    {
      seeded, ids := [], [];
      if end == ConnectFailed {
        isOrderPlaced := false;
        return;
      }
      if !isOrderPlaced {
        seeded, ids := Seed(responses);
        isOrderPlaced := true;
      }
      if end == ListenerRaised {
        isOrderPlaced := false;
      }
    }

    /** The seeding step: the long grid's buy and reduce-only sell, then the
        short grid's sell and reduce-only buy, for each enabled grid. */
    method Seed(responses: seq<PlaceResponse>) returns (seeded: seq<OrderRequest>, ids: seq<Option<string>>)
      requires ValidConfig(engine.cfg) && |responses| >= 4
      modifies engine.ledger
      ensures seeded == SeedOrders(engine.cfg, engine.State())
      ensures |ids| == |seeded| && forall i :: 0 <= i < |ids| ==> ids[i] == PlacedId(responses[i])
      ensures engine.ledger.orders == RecordAll(old(engine.ledger.orders), seeded, responses)
    {
      ghost var before := engine.ledger.orders;
      seeded, ids := SeedGrid(Long, before, [], [], responses);
      seeded, ids := SeedGrid(Short, before, seeded, ids, responses);
    }

    /** One grid's part of the seeding step, if that grid is enabled. */
    method SeedGrid(ps: PosSide, ghost before: map<string, OrderInfo>, seeded: seq<OrderRequest>,
                    ids: seq<Option<string>>, responses: seq<PlaceResponse>)
      returns (seeded': seq<OrderRequest>, ids': seq<Option<string>>)
      requires ValidConfig(engine.cfg) && |seeded| + 2 <= |responses| && |ids| == |seeded|
      requires forall i :: 0 <= i < |ids| ==> ids[i] == PlacedId(responses[i])
      requires engine.ledger.orders == RecordAll(before, seeded, responses)
      modifies engine.ledger
      ensures seeded' == seeded + GridSeed(engine.cfg, engine.State(), ps)
      ensures |ids'| == |seeded'| && forall i :: 0 <= i < |ids'| ==> ids'[i] == PlacedId(responses[i])
      ensures engine.ledger.orders == RecordAll(before, seeded', responses)
    {
      seeded', ids' := seeded, ids;
      var cfg := engine.cfg;
      if ps == Long && cfg.long.enabled {
        var prices := CalculateGridPrices(engine.longTrigger, "long", cfg);
        var size := cfg.long.gridSize;
        seeded', ids' := PlaceNext(engine.ledger, before, seeded', ids', OrderRequest(Buy, prices.0, size, Long, false), responses);
        seeded', ids' := PlaceNext(engine.ledger, before, seeded', ids', OrderRequest(Sell, prices.1, size, Long, true), responses);
      } else if ps == Short && cfg.short.enabled {
        var prices := CalculateGridPrices(engine.shortTrigger, "short", cfg);
        var size := cfg.short.gridSize;
        seeded', ids' := PlaceNext(engine.ledger, before, seeded', ids', OrderRequest(Sell, prices.1, size, Short, false), responses);
        seeded', ids' := PlaceNext(engine.ledger, before, seeded', ids', OrderRequest(Buy, prices.0, size, Short, true), responses);
      }
    }
  }
}
