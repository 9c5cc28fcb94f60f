/**
 One tick of the bot's main loop and the per-pair decision it fans out:
 which (symbol, timeframe) pairs are fetched, and what is done with the data
 the exchange returns for one pair. The exchange and the notification
 channel are outside the model; their answers are parameters.
 */
module Bot {
  import opened Candles
  import opened Schedule

  /** The live price from the ticker, which may be missing. */
  datatype Quote = NoQuote | Last(price: real)

  /** One bar as the exchange reports it; `openTime` is in seconds. */
  datatype Candle = Candle(openTime: int, open: real, high: real, low: real, close: real)

  /** What processing one pair comes to. */
  datatype Outcome =
    | NoPrice
    | InsufficientData
    | OutsideWindow(timeToClose: int)
    | Quiet(result: Classification)
    | Alert(result: Classification)

  /** The seconds from the exchange's clock to the close of the bar that
      opened at `openTime`. */
  function TimeToClose(openTime: int, period: Period, serverNow: int): int {
    openTime + period - serverNow
  }

  /** When the forming bar opened at the last multiple of the period at or
      before `now`, the recomputed countdown is the scheduler's countdown. */
  lemma AlignedCandleAgrees(now: nat, period: Period)
    ensures TimeToClose(now - now % period, period, now) == SecondsToClose(now, period)
  {
  }

  /** The bar handed to the classifier: the forming candle with the live
      price standing in for its close. */
  function FormingBar(c: Candle, price: real): Bar {
    Bar(c.open, c.high, c.low, price)
  }

  /** The decision for one pair, given the quote, the candles and the
      exchange's clock: a missing price or fewer than two candles stop it;
      outside the fetch band nothing is classified; otherwise the forming
      (last) candle is classified and only a pattern other than 'None' is
      alerted. */
  function Evaluate(quote: Quote, candles: seq<Candle>, serverNow: int, period: Period): Outcome {
    if quote.NoQuote? then NoPrice
    else if |candles| < 2 then InsufficientData
    else
      var forming := candles[|candles| - 1];
      var t := TimeToClose(forming.openTime, period, serverNow);
      if !InFineBand(t) then OutsideWindow(t)
      else
        var result := Identify(FormingBar(forming, quote.price));
        if result.pattern != NoPattern then Alert(result) else Quiet(result)
  }

  /** An alert is raised exactly when a price and at least two candles were
      returned, the forming candle closes within the fetch band, and its
      pattern is not 'None'; the alert carries that candle's classification. */
  lemma AlertExactly(quote: Quote, candles: seq<Candle>, serverNow: int, period: Period)
    ensures Evaluate(quote, candles, serverNow, period).Alert? <==>
      && quote.Last?
      && |candles| >= 2
      && InFineBand(TimeToClose(candles[|candles| - 1].openTime, period, serverNow))
      && Identify(FormingBar(candles[|candles| - 1], quote.price)).pattern != NoPattern
    ensures Evaluate(quote, candles, serverNow, period).Alert? ==>
      Evaluate(quote, candles, serverNow, period).result
        == Identify(FormingBar(candles[|candles| - 1], quote.price))
  {
  }

  /** Degraded data never reaches the classifier. */
  lemma DegradedDataSkipped(quote: Quote, candles: seq<Candle>, serverNow: int, period: Period)
    ensures quote.NoQuote? ==> Evaluate(quote, candles, serverNow, period) == NoPrice
    ensures quote.Last? && |candles| < 2 ==>
      Evaluate(quote, candles, serverNow, period) == InsufficientData
  {
  }

  /** A bar with a wide body is never alerted, whatever the timing. */
  lemma WideBodyNeverAlerts(quote: Quote, candles: seq<Candle>, serverNow: int, period: Period)
    requires quote.Last? && |candles| >= 2
    requires var b := FormingBar(candles[|candles| - 1], quote.price);
      b.high != b.low && ShapeOf(b).BodyPct() > 0.2
    ensures !Evaluate(quote, candles, serverNow, period).Alert?
  {
    WideBodyIsNoPattern(FormingBar(candles[|candles| - 1], quote.price));
  }

  // ---------------------------------------------------------------------
  // The pairs fetched in one tick
  // ---------------------------------------------------------------------

  /** One fetch task: a symbol and a timeframe. */
  datatype Task = Task(symbol: string, timeframe: Timeframe)

  /** The tasks for one symbol, one per due check in the checks' order: a
      task is listed exactly when it carries the symbol and the timeframe of
      one of the checks. */
  function SymbolTasks(symbol: string, due: seq<CloseCheck>): (r: seq<Task>)
    ensures |r| == |due|
    ensures forall t: Task :: t in r <==>
      t.symbol == symbol && exists c :: c in due && c.timeframe == t.timeframe
  {
    var r := seq(|due|, i requires 0 <= i < |due| => Task(symbol, due[i].timeframe));
    assert forall t: Task ::
      (t.symbol == symbol && exists c :: c in due && c.timeframe == t.timeframe) ==> t in r
    by {
      forall t: Task | t.symbol == symbol && exists c :: c in due && c.timeframe == t.timeframe
        ensures t in r
      {
        var c :| c in due && c.timeframe == t.timeframe;
        var i :| 0 <= i < |due| && due[i] == c;
        assert r[i] == t;
      }
    }
    r
  }

  /** The tasks of one tick, symbol by symbol: every symbol gets a task for
      every timeframe in the fetch band, and there are no other tasks. */
  function DuePairs(now: nat, symbols: seq<string>, table: seq<Timeframe>): (r: seq<Task>)
    ensures |r| == |symbols| * |FetchTimeframes(now, table)|
    ensures forall t: Task :: t in r <==>
      t.symbol in symbols && t.timeframe in table
      && InFineBand(SecondsToClose(now, t.timeframe.period))
  {
    if symbols == [] then []
    else
      var n := |FetchTimeframes(now, table)|;
      var head := SymbolTasks(symbols[0], FetchTimeframes(now, table));
      var rest := DuePairs(now, symbols[1..], table);
      SymbolTasksExactly(now, symbols[0], table);
      assert |symbols| * n == n + (|symbols| - 1) * n;
      assert forall s :: s in symbols <==> s == symbols[0] || s in symbols[1..];
      head + rest
  }

  /** One symbol's tasks are exactly its pairs with the timeframes in the
      fetch band. */
  lemma SymbolTasksExactly(now: nat, symbol: string, table: seq<Timeframe>)
    ensures forall t :: t in SymbolTasks(symbol, FetchTimeframes(now, table)) <==>
      t.symbol == symbol && t.timeframe in table
      && InFineBand(SecondsToClose(now, t.timeframe.period))
  {
    var due := FetchTimeframes(now, table);
    forall t: Task | t.symbol == symbol && t.timeframe in table
      && InFineBand(SecondsToClose(now, t.timeframe.period))
      ensures t in SymbolTasks(symbol, due)
    {
      assert CheckOf(now, t.timeframe) in due;
    }
  }

  // ---------------------------------------------------------------------
  // One tick
  // ---------------------------------------------------------------------

  /** What one tick decides: the announcements, the fetch tasks and the
      sleep before the next tick. */
  datatype TickPlan = TickPlan(upcoming: seq<CloseCheck>, tasks: seq<Task>, sleep: nat)

  function Tick(now: nat, symbols: seq<string>, table: seq<Timeframe>): TickPlan {
    TickPlan(UpcomingTimeframes(now, table), DuePairs(now, symbols, table), LoopSleep(now, table))
  }

  /** Every timeframe fetched in a tick was announced in the same tick, and
      the sleep is at most the update interval and never passes a close. */
  lemma TickConsistent(now: nat, symbols: seq<string>, table: seq<Timeframe>)
    ensures var plan := Tick(now, symbols, table);
      && (forall t :: t in plan.tasks ==> CheckOf(now, t.timeframe) in plan.upcoming)
      && 0 < plan.sleep <= UpdateInterval
      && (forall i :: 0 <= i < |table| ==> plan.sleep <= SecondsToClose(now, table[i].period))
  {
    var plan := Tick(now, symbols, table);
    forall t: Task | t in plan.tasks
      ensures CheckOf(now, t.timeframe) in plan.upcoming
    {
      FineWithinCoarse(SecondsToClose(now, t.timeframe.period));
    }
  }
}
