# OKX grid bot: the grid order-state engine in Dafny

The bot runs a two-sided grid on the BTC-USDT-SWAP perpetual. It keeps a long
grid and a short grid. Each grid has a position, a trigger price and a
take-profit counter. Each grid keeps one resting opening order and one resting
reduce-only closing order. Every order-update event from the venue's `orders`
channel may move a grid and re-quote it. Before re-quoting, the bot cancels the
stale leg, but only orders that its own order ledger knows (with one exception,
below). This project models that engine:

- **the event filter**: the instrument, a ledger-known order id, the `filled` state with a positive filled size, and an enabled grid;
- **the per-side state machine**: an opening fill below the ceiling, an opening fill at or past the ceiling, and a closing fill;
- **reconciliation** against the venue's pending-order list;
- **the grid price helper**;
- **the order ledger**, and how `place_order` fills it;
- **the client order id format**;
- **the one-shot seeding flag** of the connect loop.

Units. Prices are whole cents. Quantities are whole lots of 0.001 BTC, that
is, the source's BTC amounts times 1000: the shipped configuration trades 2
lots per step (0.002 BTC) under a 10-lot ceiling (0.01 BTC). The venue counts
in contracts of 0.01 BTC: the source sends `sz = size*100` ("0.2" for 0.002 BTC,
okx-bot.py:221) and reads `accFillSz/100` as BTC (okx-bot.py:272), so a model
quantity, including an event's filled size (`OrderEvent.filledLots`), is ten
times the venue's field, and an event's price (`OrderEvent.priceCents`) is in cents.
The grid spacing is a fraction num/den (0.6 % is 6/1000). `round(x, 2)` becomes
round-half-to-even of the exact quotient, to whole cents.

Layout:

- `Types.dfy`: the shared values. These are directions, position sides, events, pending orders, requests and configuration.
- `Ledger.dfy`: the ledger as a map, and the `Ledger` class that updates it in place.
- `Placement.dfy`:
  - `generate_clOrdId`, with the clock and the random characters as parameters;
  - how a place-order reply is read;
  - what one placement or a series of placements records.
- `GridPrices.dfy`: `calculate_grid_prices`.
- `Engine.dfy`:
  - `React`, the pure specification of one event;
  - `StaleCancels`, and the reconciliation loop `ReconcileCancels`;
  - the class `Engine`. It holds the six per-side globals. Its `OnFill` keeps the listener's literal branches and is proved equal to `React`. `ProcessMessage` walks one websocket message.
- `EngineProperties.dfy`: the listener's promises as lemmas over `React` and `ReactAll`, with worked examples.
- `Dispatcher.dfy`: the `is_order_placed` flag and the seeding step of the connect loop.
- `Arithmetic.dfy`: two integer facts the proofs use.

Behaviour kept exactly as the code has it, including where a plainer reading
of the bot would expect otherwise:

- A closing fill lowers the position by the filled size with no floor at zero; it can go negative. See `ExampleClosingBelowZero`.
- The ceiling test runs after the fill is added. At or past the ceiling the position still grows, but the trigger price is not updated.
- The short grid's opening branch below the ceiling cancels every pending short buy, without the ledger check. Every other branch has that check. See `ExampleShortOpeningCancelsForeignOrder`.
- Reconciliation looks at the `side` and `posSide` of every pending order. It never compares the order's `instId`.
- Any exception that reaches the connect loop (okx-bot.py:550-553) lowers the seeding flag, so the next pass whose login exchange returns seeds every enabled grid again (four orders with both grids on). A closed connection is caught inside the listener (okx-bot.py:404-407), which then returns normally; that keeps the flag up, so the reconnect after it does not seed.
- For a trigger of 85802.60 and a spacing of 0.6 %, the formula quotes a buy at 85287.78 and a reduce-only sell at 86317.42; `ExampleLongOpening` proves those values.
- The login reply is never inspected (okx-bot.py:531-532): a refused login still goes on to seed.

## Model

| member | source | states |
|---|---|---|
| `OrderLedger.Saved` | okx-bot.py:47-76 | after saving, the id looks up to exactly the saved (side, price, pos_side); every other id looks up as before; the ledger's keys gain just that id |
| `OrderLedger.Lookup` | okx-bot.py:79-100 | an id answers nothing exactly when it was never saved, and otherwise answers the saved entry |
| `OrderLedger.Ledger.SaveOrderInfo` | okx-bot.py:47-76 | the in-place ledger afterwards is the old ledger with the entry saved |
| `OrderLedger.Ledger.GetOrderInfo` | okx-bot.py:79-100 | the entry of a known id; nothing for an id never saved |
| `Placement.DecimalStringRoundTrip` | okx-bot.py:105 | the decimal digits that `str(int(...))` writes read back to the same number |
| `Placement.DigitsSuffix` | okx-bot.py:107 | the last k digits of a number's decimal string denote the number modulo 10^k |
| `Placement.ClOrdId` | okx-bot.py:103-107 | the client order id is at most 32 characters; it is a prefix of side + random part + last six clock digits; it starts with the side |
| `Placement.ClOrdIdShape` | okx-bot.py:103-107 | for buy or sell, six random characters and a clock of at least 10^5 ms, the id is exactly the side, the random part, and six digits that denote the clock modulo 10^6 |
| `Placement.ClockHasSixDigits` | okx-bot.py:103-107 | a millisecond clock of at least 10^5 prints with at least six digits, so `[-6:]` takes six clock digits |
| `Placement.PlacedId` | okx-bot.py:239-247 | `place_order` returns an id exactly when the code is "0", `data` is non-empty and its first item has a non-empty `ordId`; that id is the one returned |
| `Placement.Record` | okx-bot.py:239-245 | a failed placement leaves the ledger unchanged; a successful one records (side, price, pos_side) under the new id and changes no other entry |
| `Placement.RecordAllEffect` | okx-bot.py:239-245 | after a series of placements, the ledger's keys are the old keys plus exactly the granted ids, and every other id's entry is unchanged |
| `Placement.PlaceOrder` | okx-bot.py:208-247 | returns the granted id or nothing; the ledger afterwards is the old one with that placement recorded |
| `Placement.PlaceNext` | okx-bot.py:302-303 | successive `place_order` calls: the i-th request is answered by the i-th reply and the ledger accumulates the records in order |
| `GridPrices.RoundHalfEven` | okx-bot.py:113-117 | the result is within half a unit of the exact quotient, and an exact tie goes to the even neighbour |
| `GridPrices.CalculateGridPrices` | okx-bot.py:110-118 | each price is the whole cent nearest to trigger·(1 − spacing) and trigger·(1 + spacing); the long spacing is used for "long", the short spacing for anything else |
| `GridPrices.GridPricesBracket` | okx-bot.py:110-118 | with a non-negative trigger, buy price ≤ trigger ≤ close price, for either side |
| `GridPrices.ZeroSpacingQuotesTrigger` | okx-bot.py:110-118 | a zero spacing quotes both legs at the trigger itself |
| `GridEngine.StaleIndices` | okx-bot.py:294-300 | the positions the reconciliation loop acts on: strictly increasing, each a stale pending order (matching side and posSide, and in the ledger when checked), and every stale position among them |
| `GridEngine.StaleCancels` | okx-bot.py:294-300 | the cancels for a leg are, in list order, exactly one per stale pending order: the k-th cancel names the order at the k-th stale position, so no order is cancelled twice and none is skipped |
| `GridEngine.StaleCancelsExact` | okx-bot.py:294-300 | every cancel is for a stale pending order, and every stale pending order is cancelled |
| `GridEngine.CancelsOnlyOwnOrders` | okx-bot.py:296-300 | with the ledger check, no cancel names an id the ledger does not know |
| `GridEngine.ReconcileCancels` | okx-bot.py:294-300 | the loop over the pending-order list issues exactly the leg's stale cancels, in list order |
| `GridEngine.React` | okx-bot.py:263-400 | one event places at most two orders |
| `GridEngine.Engine.OnFill` | okx-bot.py:264-400 | the new globals, the cancels, the placements and the ledger are those of `React` and the placement replies; each returned id is the reply's granted id |
| `GridEngine.Engine.OnLongFill` | okx-bot.py:285-343 | the long branches change only the long globals, exactly as `GridEngine.SideReact` prescribes for the long grid |
| `GridEngine.Engine.OnShortFill` | okx-bot.py:346-400 | the short branches change only the short globals, exactly as `GridEngine.SideReact` prescribes for the short grid |
| `GridEngine.Engine.PlaceLegs` | okx-bot.py:302-303 | the branch's one or two placements are sent in order, and the ledger records the granted ones |
| `GridEngine.Engine.ProcessMessage` | okx-bot.py:263-264 | a message's events are handled in order, giving the state and ledger of `ReactAll`; a message on another channel or without data changes nothing |
| `GridEngineProperties.IgnoredEvents` | okx-bot.py:266-285 | any of these leaves state, cancels and placements untouched: another instrument, an id missing from the ledger, not `filled`, a filled size ≤ 0, a disabled or unknown grid, a side other than buy or sell |
| `GridEngineProperties.AcceptedEventsAct` | okx-bot.py:281-400 | conversely, an event that passes the filter on an enabled grid with side buy or sell always moves that grid's position and places at least one order |
| `GridEngineProperties.LongOpeningBelowCeiling` | okx-bot.py:286-303 | long buy below the ceiling: position += fill; trigger := fill price; ledger-known long sells are cancelled; exactly a buy at the buy price and a reduce-only sell at the close price are placed, both of the grid size; the short side is untouched |
| `GridEngineProperties.ShortOpeningBelowCeiling` | okx-bot.py:347-359 | short sell below the ceiling: the mirror image, a sell at the close price and a reduce-only buy at the buy price; its cancels skip the ledger check |
| `GridEngineProperties.OpeningAtCeiling` | okx-bot.py:309-318 | opening fill reaching the ceiling: position += fill; trigger and take-profit counter unchanged; exactly one placement, the reduce-only closing leg; ledger-checked cancels of the closing leg; the other grid is untouched |
| `GridEngineProperties.ClosingFill` | okx-bot.py:324-339 | closing fill: position −= fill with no floor; trigger := fill price; counter + 1; ledger-checked cancels of the opening leg; both legs re-quoted; the other grid is untouched |
| `GridEngineProperties.PlacementsBelongToGrid` | okx-bot.py:302-303 | every placement has the grid's size and position side, and is reduce-only exactly when it is in the closing direction |
| `GridEngineProperties.ReconciliationTargets` | okx-bot.py:294-300 | every cancel is for a pending order on the event's posSide, in the direction opposite to the fill; outside the short opening branch its id is in the ledger |
| `GridEngineProperties.ReactCountersGrow` | okx-bot.py:285-400 | a take-profit counter changes only on a closing fill that passes the filter (sell on an enabled long grid, buy on an enabled short grid): that grid's counter gains exactly one and the other stays; every other update leaves both counters as they were |
| `GridEngineProperties.RunMonotone` | okx-bot.py:327 | over any run of events, neither take-profit counter decreases and the ledger never loses an id |
| `GridEngineProperties.ExampleLongOpening` | okx-bot.py:286-303 | a buy of 2 lots at 85802.60 from flat: position 2; buy quoted at 85287.78 and reduce-only sell at 86317.42; only the bot's own long sell is cancelled |
| `GridEngineProperties.ExampleLongCeiling` | okx-bot.py:309-318 | a buy of 2 lots on a position of 9: the position becomes 11; only the reduce-only sell is placed; trigger and counter are kept |
| `GridEngineProperties.ExampleClosingBelowZero` | okx-bot.py:325 | a sell of 4 lots on a long position of 2 leaves −2 |
| `GridEngineProperties.ExampleShortOpeningCancelsForeignOrder` | okx-bot.py:354-357 | the short opening branch cancels a pending short buy whose id the ledger has never seen |
| `StreamDispatcher.NextFlag` | okx-bot.py:534-553 | after a pass the flag is up exactly when the listener returned normally |
| `StreamDispatcher.SeedingPasses` | okx-bot.py:508-553 | a pass seeds exactly when its login exchange returns and either it is the first pass or the previous pass did not end with a normal return |
| `StreamDispatcher.SeedOrders` | okx-bot.py:536-545 | the seed is the long grid's orders followed by the short grid's; an enabled grid gets exactly its non-reduce-only opening leg and its reduce-only closing leg, of its grid size, priced by `calculate_grid_prices` from that grid's trigger (long buys low and sells high, short sells high and buys low); a disabled grid gets none; four orders with both grids on |
| `StreamDispatcher.SeedQuotesBracketTrigger` | okx-bot.py:536-545 | with non-negative triggers, every seed buy is at or below its grid's trigger and every seed sell at or above it |
| `StreamDispatcher.Dispatcher.Seed` | okx-bot.py:536-545 | the seeding step places exactly `SeedOrders` from the current triggers, in order, and records the granted ones |
| `StreamDispatcher.Dispatcher.SeedGrid` | okx-bot.py:536-545 | one grid's seeding appends exactly that grid's opening and reduce-only closing leg (nothing when the grid is disabled), each answered by the next venue response and recorded when granted |
| `StreamDispatcher.Dispatcher.Connect` | okx-bot.py:509-553 | a pass seeds only while the flag is down and its login exchange returns; afterwards the flag is up exactly when the listener returned normally |

## Left out

- HMAC-SHA256 signing and base64 (okx-bot.py:121-125, 513-517): a library call with no logic of its own.
- The REST calls and the websocket transport: `query_orders`, `cancel_order_rest_api`, `cancel_all_orders`, `get_account_balance`, connect, login, subscribe and receive. These are I/O. The pending-order list and each place-order reply are inputs. Cancels and placements are outputs.
- How `query_orders` reports an error: it returns an empty list, which is one of the inputs the model already allows.
- An exception inside the listener's `try`, for example a network error raised by a cancel or a placement. It abandons the rest of the message after the globals have changed, and the loop carries on. The model lets every call complete.
- An exception raised midway through seeding. `Dispatcher.Connect` either seeds all enabled grids or, on `ConnectFailed`, none.
- The JSON file `order_records.json`. The ledger is an in-memory map. A failed file read or write, which the source logs and swallows, is not modelled.
- `send_to_feishu`, the `print` calls and the start-up banner: display and notification only.
- The globals `buy_ordId` and `close_long_ordId`: the seeding step assigns them (okx-bot.py:538-539) and nothing reads them. The global `take_profit_count`: it is passed to `send_to_feishu` (okx-bot.py:308, 323, 343), which never reads that parameter (okx-bot.py:454 reads the per-side counters instead).
- Python floats and their `round`. Prices are exact cents and sizes exact lots. Rounding is round-half-even of the exact quotient.
- The wall clock and `random.choices` in `generate_clOrdId`. They are parameters of `Placement.ClOrdId`. The JSON request body that carries the id is not modelled.
- GridEngine.React: its own contract states only the bound on placements. Its behaviour is stated by the lemmas of `GridEngineProperties`.
- GridEngine.Engine.OnFill: it needs at least two placement replies per event, because the replies are inputs given up front. The source makes at most two placements per event.
- StreamDispatcher.Dispatcher.Connect: it needs four placement replies for seeding, for the same reason.
