/**
 The close-window arithmetic of the bot: how many seconds remain until each
 timeframe's bar closes, which timeframes are announced (coarse band) and
 which are fetched and classified (fine band), and how long the loop sleeps.
 Time is a whole number of seconds since the epoch.
 */
module Schedule {

  /** A timeframe's period in seconds; periods are positive. */
  type Period = p: nat | p > 0 witness 1

  /** A named timeframe, such as "4h" with a period of 14400 seconds. */
  datatype Timeframe = Timeframe(name: string, period: Period)

  /** The announcement window before a close, in seconds. */
  const CheckWindow: nat := 3 * 60

  /** The longest the main loop ever sleeps, in seconds. */
  const UpdateInterval: nat := 60

  /** The timeframes the bot watches, in the order it visits them. */
  const Timeframes: seq<Timeframe> := [
    Timeframe("2h", 2 * 60 * 60),
    Timeframe("4h", 4 * 60 * 60),
    Timeframe("8h", 8 * 60 * 60),
    Timeframe("12h", 12 * 60 * 60),
    Timeframe("1d", 24 * 60 * 60),
    Timeframe("2d", 2 * 24 * 60 * 60),
    Timeframe("3d", 3 * 24 * 60 * 60),
    Timeframe("1w", 7 * 24 * 60 * 60)
  ]

  // ---------------------------------------------------------------------
  // Seconds to the next close
  // ---------------------------------------------------------------------

  /** The seconds from `now` to the end of the bar of the given period that
      contains `now`: a positive count, at most one period, landing on a
      multiple of the period; at an exact boundary it is a whole period. */
  function SecondsToClose(now: nat, period: Period): (t: nat)
    ensures 0 < t <= period
    ensures (now + t) % period == 0
    ensures now % period == 0 ==> t == period
  {
    var t := period - now % period;
    ModSplit(now, period);
    assert now + t == (now / period + 1) * period;
    MultipleMod(now / period + 1, period);
    t
  }

  lemma ModSplit(n: nat, p: Period)
    ensures n == (n / p) * p + n % p
    ensures 0 <= n % p < p
  {
  }

  lemma MultipleMod(q: nat, p: Period)
    ensures (q * p) % p == 0
  {
    ModOffset(q, p, 0);
  }

  /** A nonzero multiple of p is at least p away from zero. */
  lemma MultipleApart(a: int, p: int)
    requires p > 0
    ensures a > 0 ==> a * p >= p
    ensures a < 0 ==> a * p <= -p
  {
    if a > 0 {
      var b: nat := a - 1;
      assert a * p == b * p + p;
    } else if a < 0 {
      var b: nat := -a - 1;
      assert a * p == -(b * p) - p;
    }
  }

  /** No boundary of the period lies strictly between `now` and the close
      `SecondsToClose` names: the close is the next one. */
  lemma NoEarlierClose(now: nat, period: Period, d: nat)
    requires 0 < d < SecondsToClose(now, period)
    ensures (now + d) % period != 0
  {
    ModSplit(now, period);
    var q := now / period;
    var r := now % period;
    assert now + d == q * period + (r + d);
    assert 0 < r + d < period;
    ModOffset(q, period, r + d);
  }

  lemma ModOffset(q: nat, p: Period, r: nat)
    requires r < p
    ensures (q * p + r) % p == r
    ensures (q * p + r) / p == q
  {
    var n := q * p + r;
    ModSplit(n, p);
    var q' := n / p;
    var r' := n % p;
    assert (q - q') * p == r' - r;
    MultipleApart(q - q', p);
  }

  /** Waiting s seconds, short of the close, leaves s seconds fewer to it;
      waiting exactly until the close starts a fresh period. */
  lemma Countdown(now: nat, period: Period, s: nat)
    requires s <= SecondsToClose(now, period)
    ensures s < SecondsToClose(now, period) ==>
      SecondsToClose(now + s, period) == SecondsToClose(now, period) - s
    ensures s == SecondsToClose(now, period) ==> SecondsToClose(now + s, period) == period
  {
    ModSplit(now, period);
    var q := now / period;
    var r := now % period;
    if s < SecondsToClose(now, period) {
      assert now + s == q * period + (r + s);
      ModOffset(q, period, r + s);
    } else {
      assert (now + s) % period == 0;
    }
  }

  // ---------------------------------------------------------------------
  // Bands
  // ---------------------------------------------------------------------

  /** The announcement band: from half a minute inside the check window to a
      minute beyond it. */
  predicate InCoarseBand(t: int) {
    CheckWindow - 30 <= t <= CheckWindow + 60
  }

  /** The fetch band: half a minute either side of the check window. */
  predicate InFineBand(t: int) {
    CheckWindow - 30 <= t <= CheckWindow + 30
  }

  /** Every countdown in the fetch band is also in the announcement band,
      and the announcement band reaches half a minute further out. */
  lemma FineWithinCoarse(t: int)
    ensures InFineBand(t) ==> InCoarseBand(t)
    ensures InCoarseBand(t) && !InFineBand(t) <==> CheckWindow + 30 < t <= CheckWindow + 60
  {
  }

  /** A timeframe 170 seconds from its close is both announced and fetched. */
  lemma DueExample(now: nat, period: Period)
    requires period > 170 && now % period == period - 170
    ensures SecondsToClose(now, period) == 170
    ensures InCoarseBand(SecondsToClose(now, period)) && InFineBand(SecondsToClose(now, period))
  {
  }

  // ---------------------------------------------------------------------
  // Due timeframes
  // ---------------------------------------------------------------------

  /** A timeframe together with its countdown at the current instant. */
  datatype CloseCheck = CloseCheck(timeframe: Timeframe, secondsToClose: nat)

  function CheckOf(now: nat, tf: Timeframe): CloseCheck {
    CloseCheck(tf, SecondsToClose(now, tf.period))
  }

  /** Which of the two bands a filter uses. */
  datatype Band = Coarse | Fine

  predicate InBand(band: Band, t: int) {
    match band
    case Coarse => InCoarseBand(t)
    case Fine => InFineBand(t)
  }

  /** The checks of the timeframes whose countdown lies in the band, in the
      table's order: each one is the check of a table entry and lies in the
      band, and every table entry whose countdown lies in the band has its
      check in the result. */
  function Due(now: nat, table: seq<Timeframe>, band: Band): (r: seq<CloseCheck>)
    ensures |r| <= |table|
    ensures forall c :: c in r ==> InBand(band, c.secondsToClose)
    ensures forall c :: c in r ==> c.timeframe in table && c == CheckOf(now, c.timeframe)
    ensures forall tf :: tf in table && InBand(band, SecondsToClose(now, tf.period)) ==>
      CheckOf(now, tf) in r
  {
    if table == [] then []
    else
      var c := CheckOf(now, table[0]);
      var rest := Due(now, table[1..], band);
      assert forall tf :: tf in table ==> tf == table[0] || tf in table[1..];
      if InBand(band, c.secondsToClose) then [c] + rest else rest
  }

  /** The timeframes announced as closing soon. */
  function UpcomingTimeframes(now: nat, table: seq<Timeframe>): seq<CloseCheck> {
    Due(now, table, Coarse)
  }

  /** The timeframes the loop fetches and classifies. */
  function FetchTimeframes(now: nat, table: seq<Timeframe>): seq<CloseCheck> {
    Due(now, table, Fine)
  }

  /** Filtering a concatenated table filters each part in turn, so the
      result keeps the table's order. */
  lemma {:induction false} DueConcat(now: nat, a: seq<Timeframe>, b: seq<Timeframe>, band: Band)
    ensures Due(now, a + b, band) == Due(now, a, band) + Due(now, b, band)
  {
    if a == [] {
      assert a + b == b;
    } else {
      assert (a + b)[1..] == a[1..] + b;
      DueConcat(now, a[1..], b, band);
    }
  }

  /** The checks of a sequence that lie in the fetch band, in order. */
  function KeepFine(checks: seq<CloseCheck>): seq<CloseCheck> {
    if checks == [] then []
    else (if InFineBand(checks[0].secondsToClose) then [checks[0]] else []) + KeepFine(checks[1..])
  }

  /** The fetched timeframes are exactly the announced ones that lie in the
      fetch band, in the same order: the fetch list is a subsequence of the
      announcement list. */
  lemma {:induction false} FetchRefinesUpcoming(now: nat, table: seq<Timeframe>)
    ensures FetchTimeframes(now, table) == KeepFine(UpcomingTimeframes(now, table))
  {
    if table != [] {
      FetchRefinesUpcoming(now, table[1..]);
      var c := CheckOf(now, table[0]);
      FineWithinCoarse(c.secondsToClose);
      if InCoarseBand(c.secondsToClose) {
        var up := UpcomingTimeframes(now, table);
        assert up == [c] + UpcomingTimeframes(now, table[1..]);
        assert up[0] == c && up[1..] == UpcomingTimeframes(now, table[1..]);
      }
    }
  }

  // ---------------------------------------------------------------------
  // Sleeping
  // ---------------------------------------------------------------------

  /** The shortest countdown in the table, capped by `floor`: no longer than
      the floor or than any timeframe's countdown, and equal to one of them. */
  function MinSleep(now: nat, table: seq<Timeframe>, floor: nat): (r: nat)
    ensures r <= floor
    ensures forall i :: 0 <= i < |table| ==> r <= SecondsToClose(now, table[i].period)
    ensures r == floor || exists i :: 0 <= i < |table| && r == SecondsToClose(now, table[i].period)
    ensures floor > 0 ==> r > 0
  {
    if table == [] then floor
    else
      var t := SecondsToClose(now, table[0].period);
      var rest := MinSleep(now, table[1..], floor);
      assert forall i :: 1 <= i < |table| ==> table[i] == table[1..][i - 1];
      if t <= rest then t else rest
  }

  /** The main loop's sleep: the minimum above with the update interval as
      floor, capped once more by the update interval. */
  function LoopSleep(now: nat, table: seq<Timeframe>): (s: nat)
    ensures s == MinSleep(now, table, UpdateInterval)
    ensures 0 < s <= UpdateInterval
  {
    var m := MinSleep(now, table, UpdateInterval);
    if m <= UpdateInterval then m else UpdateInterval
  }

  /** After one sleep of the main loop no timeframe has jumped over its
      fetch band: a countdown that was above the band is, at the next
      tick, either still above it or inside it. */
  lemma NoFineBandSkipped(now: nat, table: seq<Timeframe>, i: nat)
    requires i < |table|
    requires SecondsToClose(now, table[i].period) > CheckWindow + 30
    ensures var next := SecondsToClose(now + LoopSleep(now, table), table[i].period);
      next > CheckWindow + 30 || InFineBand(next)
  {
    var p := table[i].period;
    var s := LoopSleep(now, table);
    Countdown(now, p, s);
  }

  // ---------------------------------------------------------------------
  // Nested periods
  // ---------------------------------------------------------------------

  /** For a period that is k whole periods p long, the countdown is never
      shorter than p's, and once it is at most p the two close together. */
  lemma NestedCountdown(now: nat, p: Period, k: Period)
    ensures p * k > 0
    ensures SecondsToClose(now, p) <= SecondsToClose(now, p * k)
    ensures SecondsToClose(now, p * k) <= p ==> SecondsToClose(now, p * k) == SecondsToClose(now, p)
  {
    NestedRemainder(now, p, k);
    CountdownGap(now % (p * k), p, k);
  }

  /** The remainder by p is the remainder by p·k taken once more by p. */
  lemma NestedRemainder(now: nat, p: Period, k: Period)
    ensures p * k > 0
    ensures now % p == (now % (p * k)) % p
  {
    MultipleApart(k, p);
    var big: Period := p * k;
    ModSplit(now, big);
    var q := now / big;
    var r := now % big;
    ModSplit(r, p);
    var m := r / p;
    var r' := r % p;
    Regroup(q, k, m, p);
    ModOffset(q * k + m, p, r');
  }

  /** Below p·k, the distance to p·k is the distance to the next multiple of
      p plus a whole number of periods p. */
  lemma CountdownGap(r: nat, p: Period, k: Period)
    requires r < p * k
    ensures p - r % p <= p * k - r
    ensures p * k - r <= p ==> p * k - r == p - r % p
  {
    ModSplit(r, p);
    var m := r / p;
    var r' := r % p;
    SplitProduct(k, m, p);
    var e := k - m;
    assert e * p > r' >= 0;
    MultipleApart(e, p);
    assert e >= 1;
    SplitProduct(e, 1, p);
    var d := e - 1;
    assert p * k - r == d * p + (p - r');
    MultipleApart(d, p);
  }

  lemma Regroup(q: nat, k: nat, m: nat, p: nat)
    ensures q * (p * k) + m * p == (q * k + m) * p
  {
  }

  lemma SplitProduct(a: int, b: int, p: int)
    ensures a * p - b * p == (a - b) * p
  {
  }

  /** Every period in the bot's table is a whole number of two-hour periods,
      so every countdown is at least the two-hour one, and a timeframe in
      the announcement band closes at the same instant as the two-hour bar. */
  lemma TableClosesWithShortest(now: nat, i: nat)
    requires i < |Timeframes|
    ensures SecondsToClose(now, Timeframes[0].period) <= SecondsToClose(now, Timeframes[i].period)
    ensures InCoarseBand(SecondsToClose(now, Timeframes[i].period)) ==>
      SecondsToClose(now, Timeframes[i].period) == SecondsToClose(now, Timeframes[0].period)
  {
    var base := Timeframes[0].period;
    var k: Period := Timeframes[i].period / base;
    assert Timeframes[i].period == base * k;
    NestedCountdown(now, base, k);
  }
}
