/** What the order listener promises about one order update and about a run of
    them, stated over `React` and `ReactAll`. */
module GridEngineProperties {
  import opened GridTypes
  import opened OrderLedger
  import opened GridPrices
  import opened Placement
  import opened GridEngine

  /** An update the engine acts on: it passes the filter, its grid is enabled,
      and its side is buy or sell. */
  predicate Accepted(cfg: Config, e: OrderEvent, m: map<string, OrderInfo>) {
    PassesFilter(e, m) && GridOf(cfg, e).Some? && (e.side == "buy" || e.side == "sell")
  }

  /** An update for another instrument, for an id the ledger does not know, not
      (positively) filled, for a disabled or unknown grid, or with another side,
      changes nothing: no state change, no cancel, no placement. */
  lemma IgnoredEvents(cfg: Config, st: EngineState, m: map<string, OrderInfo>, e: OrderEvent, open: seq<OpenOrder>)
    requires ValidConfig(cfg)
    requires || e.instId != InstId
             || Lookup(m, e.ordId).None?
             || e.state != "filled"
             || e.filledLots <= 0
             || (e.posSide == "long" && !cfg.long.enabled)
             || (e.posSide == "short" && !cfg.short.enabled)
             || (e.posSide != "long" && e.posSide != "short")
             || (e.side != "buy" && e.side != "sell")
    ensures React(cfg, st, m, e, open) == Reaction(st, [], [])
  {
    if PassesFilter(e, m) && GridOf(cfg, e).Some? {
      var ps := GridOf(cfg, e).value;
      assert e.side != ps.Opening().Name() && e.side != ps.Closing().Name();
    }
  }

  /** Conversely, an accepted update always moves its grid's position and
      places at least one order. */
  lemma AcceptedEventsAct(cfg: Config, st: EngineState, m: map<string, OrderInfo>, e: OrderEvent, open: seq<OpenOrder>)
    requires ValidConfig(cfg) && Accepted(cfg, e, m)
    ensures var ps := GridOf(cfg, e).value;
            var r := React(cfg, st, m, e, open);
            && r.placements != []
            && StateOf(r.state, ps).position != StateOf(st, ps).position
  {
    var ps := GridOf(cfg, e).value;
    assert e.side == ps.Opening().Name() || e.side == ps.Closing().Name() by {
      if ps == Long {
        assert ps.Opening().Name() == "buy" && ps.Closing().Name() == "sell";
      } else {
        assert ps.Opening().Name() == "sell" && ps.Closing().Name() == "buy";
      }
    }
  }

  /** An opening fill (buy on long, sell on short) that keeps the position
      below the ceiling. */
  predicate OpensBelowCeiling(cfg: Config, st: EngineState, e: OrderEvent, ps: PosSide) {
    e.side == ps.Opening().Name() &&
    StateOf(st, ps).position + e.filledLots < ConfigOf(cfg, ps).maxPosition
  }

  /** Long opening fill below the ceiling: the position grows by the fill, the
      trigger becomes the fill price, the stale ledger-known long sells are
      cancelled, and exactly a buy at the buy price and a reduce-only sell at the
      close price, both of the grid size, are placed. */
  lemma LongOpeningBelowCeiling(cfg: Config, st: EngineState, m: map<string, OrderInfo>, e: OrderEvent, open: seq<OpenOrder>)
    requires ValidConfig(cfg) && PassesFilter(e, m)
    requires e.posSide == "long" && cfg.long.enabled && OpensBelowCeiling(cfg, st, e, Long)
    ensures var r := React(cfg, st, m, e, open);
            var prices := CalculateGridPrices(e.priceCents, "long", cfg);
            && r.state.long == SideState(st.long.position + e.filledLots, e.priceCents, st.long.takeProfitCount)
            && r.state.short == st.short
            && r.cancels == StaleCancels(open, "sell", "long", m, true)
            && r.placements == [OrderRequest(Buy, prices.0, cfg.long.gridSize, Long, false),
                                OrderRequest(Sell, prices.1, cfg.long.gridSize, Long, true)]
  {
  }

  /** Short opening fill below the ceiling, the mirror image: a sell at the
      close price and a reduce-only buy at the buy price. Its cancels of stale
      short buys do not consult the ledger. */
  lemma ShortOpeningBelowCeiling(cfg: Config, st: EngineState, m: map<string, OrderInfo>, e: OrderEvent, open: seq<OpenOrder>)
    requires ValidConfig(cfg) && PassesFilter(e, m)
    requires e.posSide == "short" && cfg.short.enabled && OpensBelowCeiling(cfg, st, e, Short)
    ensures var r := React(cfg, st, m, e, open);
            var prices := CalculateGridPrices(e.priceCents, "short", cfg);
            && r.state.short == SideState(st.short.position + e.filledLots, e.priceCents, st.short.takeProfitCount)
            && r.state.long == st.long
            && r.cancels == StaleCancels(open, "buy", "short", m, false)
            && r.placements == [OrderRequest(Sell, prices.1, cfg.short.gridSize, Short, false),
                                OrderRequest(Buy, prices.0, cfg.short.gridSize, Short, true)]
  {
  }

  /** Opening fill that brings the position to or past the ceiling: the
      position still grows by the fill, but the trigger and the take-profit
      counter stay, nothing opening is placed, and exactly one reduce-only
      closing order is placed. The other grid is untouched. */
  lemma OpeningAtCeiling(cfg: Config, st: EngineState, m: map<string, OrderInfo>, e: OrderEvent, open: seq<OpenOrder>)
    requires ValidConfig(cfg) && PassesFilter(e, m) && GridOf(cfg, e).Some?
    requires var ps := GridOf(cfg, e).value;
             e.side == ps.Opening().Name() &&
             StateOf(st, ps).position + e.filledLots >= ConfigOf(cfg, ps).maxPosition
    ensures var ps := GridOf(cfg, e).value;
            var r := React(cfg, st, m, e, open);
            var prices := CalculateGridPrices(e.priceCents, e.posSide, cfg);
            && StateOf(r.state, ps) == StateOf(st, ps).(position := StateOf(st, ps).position + e.filledLots)
            && r.state == WithSide(st, ps, StateOf(r.state, ps))
            && r.cancels == StaleCancels(open, ps.Closing().Name(), ps.Name(), m, true)
            && |r.placements| == 1
            && r.placements[0] == ClosingOrder(ps, ConfigOf(cfg, ps), prices)
            && r.placements[0].reduceOnly && r.placements[0].side == ps.Closing()
  {
  }

  /** Closing fill (sell on long, buy on short): the position falls by exactly
      the fill, with no floor at zero; the trigger becomes the fill price; the
      take-profit counter grows by one; the stale ledger-known opening orders
      are cancelled and both legs are quoted again. The other grid is untouched. */
  lemma ClosingFill(cfg: Config, st: EngineState, m: map<string, OrderInfo>, e: OrderEvent, open: seq<OpenOrder>)
    requires ValidConfig(cfg) && PassesFilter(e, m) && GridOf(cfg, e).Some?
    requires e.side == GridOf(cfg, e).value.Closing().Name()
    ensures var ps := GridOf(cfg, e).value;
            var r := React(cfg, st, m, e, open);
            var s := StateOf(st, ps);
            var prices := CalculateGridPrices(e.priceCents, e.posSide, cfg);
            && r.state == WithSide(st, ps, SideState(s.position - e.filledLots, e.priceCents, s.takeProfitCount + 1))
            && r.cancels == StaleCancels(open, ps.Opening().Name(), ps.Name(), m, true)
            && r.placements == [OpeningOrder(ps, ConfigOf(cfg, ps), prices), ClosingOrder(ps, ConfigOf(cfg, ps), prices)]
  {
    var ps := GridOf(cfg, e).value;
    assert e.side != ps.Opening().Name() by {
      if ps == Long { assert ps.Opening().Name() == "buy" && ps.Closing().Name() == "sell"; }
      else { assert ps.Opening().Name() == "sell" && ps.Closing().Name() == "buy"; }
    }
  }

  /** Every placement of a grid is of that grid's size and position side, and
      exactly the closing-direction ones are reduce-only. */
  lemma PlacementsBelongToGrid(cfg: Config, st: EngineState, m: map<string, OrderInfo>, e: OrderEvent, open: seq<OpenOrder>)
    requires ValidConfig(cfg) && Accepted(cfg, e, m)
    ensures var ps := GridOf(cfg, e).value;
            forall o :: o in React(cfg, st, m, e, open).placements ==>
              && o.size == ConfigOf(cfg, ps).gridSize
              && o.posSide == ps
              && (o.reduceOnly <==> o.side == ps.Closing())
  {
  }

  /** Reconciliation: every cancel is for a listed order on the event's position
      side whose direction is opposite to the fill's, and — except in the short
      grid's opening branch below the ceiling — whose id the ledger knows. */
  lemma ReconciliationTargets(cfg: Config, st: EngineState, m: map<string, OrderInfo>, e: OrderEvent, open: seq<OpenOrder>)
    requires ValidConfig(cfg)
    ensures forall c :: c in React(cfg, st, m, e, open).cancels ==>
              exists i :: 0 <= i < |open| && c == CancelOf(open[i]) &&
                open[i].posSide == e.posSide && open[i].side != e.side &&
                (open[i].side == "buy" || open[i].side == "sell")
    ensures !(GridOf(cfg, e) == Some(Short) && OpensBelowCeiling(cfg, st, e, Short)) ==>
              forall c :: c in React(cfg, st, m, e, open).cancels ==> c.ordId in m
  {
    var r := React(cfg, st, m, e, open);
    if PassesFilter(e, m) && GridOf(cfg, e).Some? {
      var ps := GridOf(cfg, e).value;
      assert ps.Name() == e.posSide;
      var dir := if e.side == ps.Opening().Name() then ps.Closing() else ps.Opening();
      var checked := !(ps == Short && OpensBelowCeiling(cfg, st, e, Short));
      assert r.cancels == [] || r.cancels == StaleCancels(open, dir.Name(), ps.Name(), m, checked);
      assert dir.Name() != e.side && (dir.Name() == "buy" || dir.Name() == "sell") by {
        if ps == Long { assert ps.Opening().Name() == "buy" && ps.Closing().Name() == "sell"; }
        else { assert ps.Opening().Name() == "sell" && ps.Closing().Name() == "buy"; }
      }
      StaleCancelsExact(open, dir.Name(), ps.Name(), m, checked);
      if checked {
        CancelsOnlyOwnOrders(open, dir.Name(), ps.Name(), m);
      }
    }
  }

  /** Across a run of updates, neither take-profit counter ever falls, and the
      ledger only gains ids. */
  lemma {:induction false} RunMonotone(cfg: Config, st: EngineState, m: map<string, OrderInfo>, events: seq<OrderEvent>,
                                       opens: seq<seq<OpenOrder>>, resps: seq<seq<PlaceResponse>>)
    requires ValidConfig(cfg) && InputsFor(|events|, opens, resps)
    ensures var (st', m') := ReactAll(cfg, st, m, events, opens, resps);
            && st'.long.takeProfitCount >= st.long.takeProfitCount
            && st'.short.takeProfitCount >= st.short.takeProfitCount
            && m.Keys <= m'.Keys
  {
    if events != [] {
      var n := |events| - 1;
      RunMonotone(cfg, st, m, events[..n], opens, resps);
      var (st1, m1) := ReactAll(cfg, st, m, events[..n], opens, resps);
      var r := React(cfg, st1, m1, events[n], opens[n]);
      ReactCountersGrow(cfg, st1, m1, events[n], opens[n]);
      RecordAllEffect(m1, r.placements, resps[n]);
    }
  }

  /** One update moves the take-profit counters only on a closing fill
      (sell on long, buy on short) that passes the filter: that grid's counter
      gains exactly one, and every other counter stays. */
  lemma ReactCountersGrow(cfg: Config, st: EngineState, m: map<string, OrderInfo>, e: OrderEvent, open: seq<OpenOrder>)
    requires ValidConfig(cfg)
    ensures var r := React(cfg, st, m, e, open);
            var closes := PassesFilter(e, m) && GridOf(cfg, e).Some? && e.side == GridOf(cfg, e).value.Closing().Name();
            && r.state.long.takeProfitCount == st.long.takeProfitCount + (if closes && GridOf(cfg, e) == Some(Long) then 1 else 0)
            && r.state.short.takeProfitCount == st.short.takeProfitCount + (if closes && GridOf(cfg, e) == Some(Short) then 1 else 0)
  {
    if PassesFilter(e, m) && GridOf(cfg, e).Some? {
      var ps := GridOf(cfg, e).value;
      if ps == Long { assert ps.Opening().Name() == "buy" && ps.Closing().Name() == "sell"; }
      else { assert ps.Opening().Name() == "sell" && ps.Closing().Name() == "buy"; }
    }
  }

  // ---------------------------------------------------------------------------
  // Worked examples, in cents and lots of 0.001 BTC
  // ---------------------------------------------------------------------------

  /** The shipped configuration: both grids on, spacing 0.6 %, 2 lots per grid
      step, a ceiling of 10 lots. */
  function ShippedConfig(): (cfg: Config)
    ensures ValidConfig(cfg)
  {
    var side := SideConfig(true, Fraction(6, 1000), 2, 10);
    Config(side, side)
  }

  /** A ledger of the bot's own orders: the filled long buy "own-1", a resting
      short sell "own-2" and a resting long sell "own-3". */
  function TestLedger(): map<string, OrderInfo> {
    map["own-1" := OrderInfo(Buy, 8580260, Long), "own-2" := OrderInfo(Sell, 8735670, Short),
        "own-3" := OrderInfo(Sell, 8631742, Long)]
  }

  /** A long buy of 2 lots at 85802.60 from a flat position: the grid quotes a
      buy at 85287.78 and a reduce-only sell at 86317.42, and cancels only the
      bot's own resting long sell. */
  lemma ExampleLongOpening()
    ensures var open := [OpenOrder("own-3", InstId, "sell", "long"),
                         OpenOrder("foreign", InstId, "sell", "long"),
                         OpenOrder("own-2", InstId, "sell", "short")];
            var st := EngineState(SideState(0, 8580260, 0), SideState(8, 8735670, 0));
            var e := OrderEvent(InstId, "filled", "buy", "long", 2, 8580260, "own-1");
            var r := React(ShippedConfig(), st, TestLedger(), e, open);
            && r.state.long == SideState(2, 8580260, 0)
            && r.cancels == [CancelRequest("own-3", InstId)]
            && r.placements == [OrderRequest(Buy, 8528778, 2, Long, false), OrderRequest(Sell, 8631742, 2, Long, true)]
  {
    var cfg := ShippedConfig();
    assert CalculateGridPrices(8580260, "long", cfg) == (8528778, 8631742) by {
      assert BuyPrice(8580260, Fraction(6, 1000)) == RoundHalfEven(8528778440, 1000);
      assert ClosePrice(8580260, Fraction(6, 1000)) == RoundHalfEven(8631741560, 1000);
    }
    var open := [OpenOrder("own-3", InstId, "sell", "long"),
                 OpenOrder("foreign", InstId, "sell", "long"),
                 OpenOrder("own-2", InstId, "sell", "short")];
    var m := TestLedger();
    assert open[..1][..0] == [];
    assert StaleCancels(open[..1], "sell", "long", m, true) == [CancelRequest("own-3", InstId)];
    assert open[..2][..1] == open[..1];
    assert "foreign" !in m;
    assert StaleCancels(open[..2], "sell", "long", m, true) == [CancelRequest("own-3", InstId)];
    assert open[..3][..2] == open[..2] && open[..3] == open;
    assert StaleCancels(open, "sell", "long", m, true) == [CancelRequest("own-3", InstId)];
  }

  /** A long buy of 2 lots on a position of 9: the position becomes 11 (past the
      ceiling of 10) and only the reduce-only sell is placed. */
  lemma ExampleLongCeiling()
    ensures var st := EngineState(SideState(9, 8500000, 3), SideState(0, 8735670, 0));
            var e := OrderEvent(InstId, "filled", "buy", "long", 2, 8580260, "own-1");
            var r := React(ShippedConfig(), st, TestLedger(), e, []);
            && r.state.long == SideState(11, 8500000, 3)
            && r.placements == [OrderRequest(Sell, 8631742, 2, Long, true)]
  {
    assert ClosePrice(8580260, Fraction(6, 1000)) == RoundHalfEven(8631741560, 1000);
  }

  /** The position has no floor: a long sell of 4 lots on a position of 2
      leaves -2. */
  lemma ExampleClosingBelowZero()
    ensures var st := EngineState(SideState(2, 8500000, 0), SideState(0, 8735670, 0));
            var e := OrderEvent(InstId, "filled", "sell", "long", 4, 8600000, "own-3");
            React(ShippedConfig(), st, TestLedger(), e, []).state.long == SideState(-2, 8600000, 1)
  {
  }

  /** The short grid's opening branch cancels a resting short buy the ledger has
      never seen. */
  lemma ExampleShortOpeningCancelsForeignOrder()
    ensures var st := EngineState(SideState(0, 8580260, 0), SideState(4, 8735670, 0));
            var e := OrderEvent(InstId, "filled", "sell", "short", 2, 8735670, "own-2");
            var r := React(ShippedConfig(), st, TestLedger(), e, [OpenOrder("foreign", InstId, "buy", "short")]);
            && r.cancels == [CancelRequest("foreign", InstId)]
            && "foreign" !in TestLedger()
  {
    var open := [OpenOrder("foreign", InstId, "buy", "short")];
    assert open[..0] == [];
  }
}
