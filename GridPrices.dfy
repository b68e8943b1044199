/** The grid's quote prices: `calculate_grid_prices` on whole cents. */
module GridPrices {
  import opened GridTypes
  import opened Arithmetic

  /** n / d rounded to the nearest integer, a tie going to the even neighbour
      (Python's `round`, applied to the exact quotient). */
  function RoundHalfEven(n: int, d: int): (r: int)
    requires d > 0
    ensures 2 * (r * d - n) <= d && 2 * (n - r * d) <= d
    ensures 2 * (r * d - n) == d || 2 * (n - r * d) == d ==> r % 2 == 0
  {
    var q, rem := n / d, n % d;
    assert n == q * d + rem;
    assert (q + 1) * d == q * d + d;
    if 2 * rem < d then q
    else if 2 * rem > d then q + 1
    else if q % 2 == 0 then q
    else q + 1
  }

  /** The opening price of a long grid, `round(trigger * (1 - spacing), 2)`, in cents. */
  function BuyPrice(trigger: int, spacing: Fraction): int
    requires spacing.den > 0
  {
    RoundHalfEven(trigger * (spacing.den - spacing.num), spacing.den)
  }

  /** The closing price of a long grid, `round(trigger * (1 + spacing), 2)`, in cents. */
  function ClosePrice(trigger: int, spacing: Fraction): int
    requires spacing.den > 0
  {
    RoundHalfEven(trigger * (spacing.den + spacing.num), spacing.den)
  }

  /** The spacing `calculate_grid_prices` uses: the long one for "long", the
      short one for anything else. */
  function SpacingFor(cfg: Config, posSide: string): Fraction {
    if posSide == "long" then cfg.long.spacing else cfg.short.spacing
  }

  /** `calculate_grid_prices`: the pair (buy price, close price), each the whole
      cent nearest to trigger * (1 - spacing) and trigger * (1 + spacing). */
  function CalculateGridPrices(trigger: int, posSide: string, cfg: Config): (prices: (int, int))
    requires ValidConfig(cfg)
    ensures var s := SpacingFor(cfg, posSide);
            && 2 * (prices.0 * s.den - trigger * (s.den - s.num)) <= s.den
            && 2 * (trigger * (s.den - s.num) - prices.0 * s.den) <= s.den
            && 2 * (prices.1 * s.den - trigger * (s.den + s.num)) <= s.den
            && 2 * (trigger * (s.den + s.num) - prices.1 * s.den) <= s.den
  {
    var s := SpacingFor(cfg, posSide);
    (BuyPrice(trigger, s), ClosePrice(trigger, s))
  }

  /** Rounding a quotient that is at most t gives at most t. */
  lemma RoundAtMost(n: int, d: int, t: int)
    requires d > 0 && n <= t * d
    ensures RoundHalfEven(n, d) <= t
  {
    var r := RoundHalfEven(n, d);
    if r > t {
      assert r * d - t * d == (r - t) * d;
      MulAtLeast(r - t, d);
    }
  }

  /** Rounding a quotient that is at least t gives at least t. */
  lemma RoundAtLeast(n: int, d: int, t: int)
    requires d > 0 && n >= t * d
    ensures RoundHalfEven(n, d) >= t
  {
    var r := RoundHalfEven(n, d);
    if r < t {
      assert t * d - r * d == (t - r) * d;
      MulAtLeast(t - r, d);
    }
  }

  /** With a non-negative trigger the buy price is at most the trigger and the
      close price at least the trigger, whichever side's spacing is used. */
  lemma GridPricesBracket(trigger: int, posSide: string, cfg: Config)
    requires ValidConfig(cfg) && trigger >= 0
    ensures var prices := CalculateGridPrices(trigger, posSide, cfg);
            prices.0 <= trigger <= prices.1
  {
    var s := SpacingFor(cfg, posSide);
    assert CalculateGridPrices(trigger, posSide, cfg) == (BuyPrice(trigger, s), ClosePrice(trigger, s));
    ScaledBounds(trigger, s.den, s.num);
    RoundAtMost(trigger * (s.den - s.num), s.den, trigger);
    RoundAtLeast(trigger * (s.den + s.num), s.den, trigger);
  }

  lemma ScaledBounds(t: int, d: int, k: int)
    requires t >= 0 && k >= 0
    ensures t * (d - k) <= t * d <= t * (d + k)
  {
    assert t * (d - k) == t * d - t * k;
    assert t * (d + k) == t * d + t * k;
  }

  /** A zero spacing quotes both legs at the trigger itself. */
  lemma ZeroSpacingQuotesTrigger(trigger: int, posSide: string, cfg: Config)
    requires ValidConfig(cfg) && SpacingFor(cfg, posSide).num == 0
    ensures CalculateGridPrices(trigger, posSide, cfg) == (trigger, trigger)
  {
    var s := SpacingFor(cfg, posSide);
    var (b, c) := CalculateGridPrices(trigger, posSide, cfg);
    if b != trigger {
      if b > trigger {
        assert b * s.den - trigger * s.den == (b - trigger) * s.den;
        MulAtLeast(b - trigger, s.den);
      } else {
        assert trigger * s.den - b * s.den == (trigger - b) * s.den;
        MulAtLeast(trigger - b, s.den);
      }
    }
    assert b == trigger && c == b;
  }
}
