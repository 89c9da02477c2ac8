/** When a queued client is advised to poll next, in exact arithmetic. */
module PollAfter {
  import opened Arithmetic
  import opened Redis
  import opened FairnessInterval

  /** The readable add script: its share of the windows needed to drain everyone up to this position. */
  function ReadableDelayMs(c: Config, position: int): int {
    Truncate(position * c.windowMs, c.maxPerWindow)
  }

  /** The checkout rate per second given to the minified version, truncated to a whole number. */
  function CheckoutsPerSecond(c: Config): int {
    Truncate(c.maxPerWindow * 1000, c.windowMs)
  }

  /** The minified version's delay, computed in Go from the truncated rate. */
  function MinifiedDelayMs(c: Config, position: int): int
    requires CheckoutsPerSecond(c) > 0
  {
    Truncate(position * 1000, CheckoutsPerSecond(c))
  }

  /** The readable delay is the whole milliseconds it takes to drain everyone up to this position at the full rate; the
      minified one is the same at the whole number of checkouts per second. */
  lemma DelaysExact(c: Config, position: nat, ms: nat, rate: nat)
    ensures ms <= ReadableDelayMs(c, position) <==> ms * c.maxPerWindow <= position * c.windowMs
    ensures rate <= CheckoutsPerSecond(c) <==> rate * c.windowMs <= c.maxPerWindow * 1000
    ensures CheckoutsPerSecond(c) > 0 ==>
      (ms <= MinifiedDelayMs(c, position) <==> ms * CheckoutsPerSecond(c) <= position * 1000)
  {
    NotNegative(position, c.windowMs);
    QuotientAtLeast(position * c.windowMs, c.maxPerWindow, ms);
    QuotientAtLeast(c.maxPerWindow * 1000, c.windowMs, rate);
    if CheckoutsPerSecond(c) > 0 {
      QuotientAtLeast(position * 1000, CheckoutsPerSecond(c), ms);
    }
  }

  lemma NotNegative(a: nat, b: nat)
    ensures a * b >= 0
  {
  }

  /** Exchanging the rate for its truncation never shortens the delay. */
  lemma MinifiedNeverEarlier(c: Config, position: nat)
    requires CheckoutsPerSecond(c) > 0
    ensures MinifiedDelayMs(c, position) >= ReadableDelayMs(c, position) >= 0
  {
    var n, rate, window, max := position, CheckoutsPerSecond(c), c.windowMs, c.maxPerWindow;
    assert n * window >= 0 && n * 1000 >= 0;
    var q := n * window / max;
    QuotientAtLeast(max * 1000, window, rate);
    QuotientAtLeast(n * window, max, q);
    QuotientAtLeast(n * window, max, 0);
    calc {
      q * rate * max;
      { assert q * rate * max == q * max * rate; }
      q * max * rate;
      <= { TimesMonotone(q * max, n * window, rate); }
      n * window * rate;
      { assert n * window * rate == rate * window * n; }
      rate * window * n;
      <= { TimesMonotone(rate * window, max * 1000, n); }
      max * 1000 * n;
      { assert max * 1000 * n == n * 1000 * max; }
      n * 1000 * max;
    }
    TimesCancel(q * rate, n * 1000, max);
    QuotientAtLeast(n * 1000, rate, q);
  }

  /** The two versions advise the same delay in every position exactly when the rate is a whole number per second. */
  lemma SameDelayIffWholeRate(c: Config)
    requires CheckoutsPerSecond(c) > 0
    ensures (forall position: nat :: MinifiedDelayMs(c, position) == ReadableDelayMs(c, position))
      <==> c.maxPerWindow * 1000 % c.windowMs == 0
  {
    var rate, window, max := CheckoutsPerSecond(c), c.windowMs, c.maxPerWindow;
    assert max * 1000 == rate * window + max * 1000 % window;
    if max * 1000 % window == 0 {
      forall position: nat ensures MinifiedDelayMs(c, position) == ReadableDelayMs(c, position) {
        WholeRateSameDelay(c, position);
      }
    } else {
      var position: nat := rate * max;
      calc {
        position * window;
        { assert rate * max * window == rate * window * max; }
        rate * window * max;
      }
      calc {
        position * 1000;
        { assert rate * max * 1000 == max * 1000 * rate; }
        max * 1000 * rate;
      }
      QuotientAtLeast(position * window, max, rate * window);
      QuotientAtLeast(position * window, max, rate * window + 1);
      assert (rate * window + 1) * max == rate * window * max + max;
      QuotientAtLeast(position * 1000, rate, max * 1000);
      assert rate * window > 0 && position * window > 0;
      assert ReadableDelayMs(c, position) == rate * window;
      assert MinifiedDelayMs(c, position) >= max * 1000;
    }
  }

  lemma WholeRateSameDelay(c: Config, position: nat)
    requires CheckoutsPerSecond(c) > 0 && c.maxPerWindow * 1000 == CheckoutsPerSecond(c) * c.windowMs
    ensures MinifiedDelayMs(c, position) == ReadableDelayMs(c, position)
  {
    var n, rate, window, max := position, CheckoutsPerSecond(c), c.windowMs, c.maxPerWindow;
    MinifiedNeverEarlier(c, position);
    assert n * window >= 0 && n * 1000 >= 0;
    var q := n * 1000 / rate;
    QuotientAtLeast(n * 1000, rate, q);
    calc {
      q * max * 1000;
      { assert q * max * 1000 == q * (max * 1000) == q * (rate * window) == q * rate * window; }
      q * rate * window;
      <= { TimesMonotone(q * rate, n * 1000, window); }
      n * 1000 * window;
      { assert n * 1000 * window == n * window * 1000; }
      n * window * 1000;
    }
    TimesCancel(q * max, n * window, 1000);
    QuotientAtLeast(n * window, max, q);
  }

  /** A client further back is never advised to poll earlier. */
  lemma DelaysFollowPosition(c: Config, p: nat, q: nat)
    requires CheckoutsPerSecond(c) > 0 && p <= q
    ensures ReadableDelayMs(c, p) <= ReadableDelayMs(c, q)
    ensures MinifiedDelayMs(c, p) <= MinifiedDelayMs(c, q)
  {
    TimesMonotone(p, q, c.windowMs);
    TimesMonotone(p, q, 1000);
    assert p * c.windowMs >= 0;
    var a, b := p * c.windowMs / c.maxPerWindow, p * 1000 / CheckoutsPerSecond(c);
    QuotientAtLeast(p * c.windowMs, c.maxPerWindow, a);
    QuotientAtLeast(q * c.windowMs, c.maxPerWindow, a);
    QuotientAtLeast(p * 1000, CheckoutsPerSecond(c), b);
    QuotientAtLeast(q * 1000, CheckoutsPerSecond(c), b);
  }
}
