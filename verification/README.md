# Candle-close pattern bot, modelled in Dafny

The bot watches a list of futures symbols across eight timeframes, from 2 hours to 1 week. Shortly before a timeframe's bar closes, it reads the forming bar and names its candlestick shape. If the shape is a recognised pattern, it sends an alert. This project models the two computations the bot is built on and proves properties of them:

- **The candlestick classifier** (`candles.dfy`, module `Candles`) models `identify_candlestick_pattern`. It takes the forming bar's open, high and low and the live price, and derives the body, the two wicks (clipped at zero) and the range. A zero-range bar is answered with ('None', 'No Range'). Every other bar gets a wick-side label from a four-rule first-match cascade and a pattern label from a three-tier cascade on the body's share of the range. Prices are exact reals, and the wick threshold is the constant 2.
- **The close-window scheduler** (`schedule.dfy`, module `Schedule`) covers the following:
  - The seconds to each timeframe's close, `P - now mod P`.
  - The announcement band `[CHECK_WINDOW-30, CHECK_WINDOW+60]` and the fetch band `[CHECK_WINDOW-30, CHECK_WINDOW+30]`, with `CHECK_WINDOW` = 180.
  - The list of timeframes in each band, in table order.
  - The sleep: the minimum of all countdowns and `UPDATE_INTERVAL` (60), capped once more by the loop.

  Time is a whole number of seconds since the epoch, and the timeframe table is a sequence of (name, positive period) pairs.
- **One tick and one pair** (`bot.dfy`, module `Bot`) covers what the main loop and `process_symbol` do with the scheduler's and the exchange's answers:
  - the (symbol, timeframe) pairs fetched in a tick;
  - the countdown recomputed from the forming bar's open time plus the period;
  - the decision to skip, classify or alert.

  The exchange's answers (quote, candles, server clock) are parameters.

## Model

| member | source | states |
|---|---|---|
| `Candles.ShapeOf` | main.py:87-90 | Body and wicks are never negative, even for a malformed bar; the range is zero exactly when high equals low |
| `Candles.ZeroRangeIsNoRange` | main.py:90-93 | A bar with high equal to low gets exactly ('None', 'No Range'), and 'No Range' is given to no other bar |
| `Candles.WickSideExactly` | main.py:99-107 | 'Longer Lower Wick' iff lower > upper and lower >= 2·body; 'Longer Upper Wick' iff upper > lower and upper >= 2·body (so the two exclude each other); 'Equal Wicks' iff neither holds, both wicks are positive and they differ by less than a tenth of the range |
| `Candles.WideBodyIsNoPattern` | main.py:125-137 | A body share above 0.2 gives pattern 'None', whatever the wicks |
| `Candles.NarrowBodyFirstMatch` | main.py:110-124 | A body share of at most 0.05 always gives one of the seven doji-family labels, never 'None'. The label is the first rule, in the order Gravestone, Dragonfly, Rickshaw Man, Long-legged, Spinning Top, High Wave, Doji, whose condition holds |
| `Candles.MiddleTierReversals` | main.py:125-135 | In the middle tier: 'Pin Bar' iff one of the two pin tests passes. 'Hammer'/'Hanging Man' iff both pin tests fail and the lower share is at least 0.6. 'Shooting Star'/'Inverted Hammer' iff both pin tests fail, the lower share is below 0.6 and the upper share is at least 0.6. The direction alone picks within each pair, and because the body is not empty, 'Hanging Man' means the price fell and 'Inverted Hammer' means it rose |
| `Candles.LongWickPatternsAgree` | main.py:99-129 | A Gravestone Doji always has wick side 'Longer Upper Wick', a Dragonfly Doji 'Longer Lower Wick', and a Pin Bar one of the two |
| `Candles.GravestoneWicks` | main.py:111-112 | The Gravestone share conditions imply the longer-upper-wick test |
| `Candles.DragonflyWicks` | main.py:113-114 | The Dragonfly share conditions imply the longer-lower-wick test |
| `Candles.PinBarWicks` | main.py:126-129 | Either Pin Bar test implies the matching long-wick test |
| `Candles.WellFormedDecomposes` | main.py:87-90 | When high and low enclose open and price, body + upper wick + lower wick = range |
| `Candles.ReversalsAreWellFormed` | main.py:125-133 | Only a bar whose high and low strictly enclose open and price can be a Hammer, Hanging Man, Shooting Star or Inverted Hammer, because neither of its wicks was clipped to zero |
| `Candles.ReversalWicks` | main.py:126-133 | A middle-tier shape that fails both Pin Bar tests and has a wick of at least 60% of the range has two wicks of positive length |
| `Candles.ReversalPatternsAgree` | main.py:130-133 | For every bar, Hammer and Hanging Man have wick side 'Longer Lower Wick', and Shooting Star and Inverted Hammer have 'Longer Upper Wick' |
| `Candles.LongLowerWicks` | main.py:130-131 | A middle-tier shape that fills its range with a lower share of at least 0.6 passes the longer-lower-wick test |
| `Candles.LongUpperWicks` | main.py:132-133 | A middle-tier shape that fills its range with an upper share of at least 0.6 passes the longer-upper-wick test |
| `Candles.SharesOf` | main.py:95-97 | The body, upper and lower shares restated without division |
| `Candles.NoneLabelOnlyForNoPattern` | main.py:224 | The alert test `pattern != 'None'` on the label text holds exactly for the patterns other than `NoPattern` |
| `Candles.ShiftInvariant` | main.py:86-139 | Adding the same amount to open, high, low and price changes neither label |
| `Candles.PatternReadsOnly` | main.py:109-137 | The pattern depends only on the three shares, the balance test, the two long-wick tests and the direction |
| `Candles.ShapeAndDirectionDecide` | main.py:86-139 | Two bars with the same body, wicks and range that move the same way get the same pair of labels |
| `Candles.DirectionMatters` | main.py:130-131 | Body and wicks alone do not decide: swapping open and price keeps them but turns a Hammer into a Hanging Man |
| `Candles.LongUpperWickDojiExample` | main.py:110-124 | open 100, high 110, low 99, price 100.2 gives ('Doji', 'Longer Upper Wick') |
| `Candles.DragonflyExample` | main.py:113-114 | open 100, high 101, low 90, price 100.5 gives ('Dragonfly Doji', 'Longer Lower Wick') |
| `Candles.MalformedExample` | main.py:86-139 | A price below the bar's low still classifies, as ('None', 'Longer Upper Wick') |
| `Schedule.SecondsToClose` | main.py:145-147 | The countdown lies in (0, P]. Adding it to now lands on a multiple of P, and at an exact boundary it is P, not 0 |
| `Schedule.NoEarlierClose` | main.py:145-147 | No multiple of P lies strictly between now and now + countdown, so the countdown reaches the next close |
| `Schedule.Countdown` | main.py:145-147 | Waiting s seconds short of the close lowers the countdown by s; waiting exactly until the close resets it to P |
| `Schedule.FineWithinCoarse` | main.py:148 | Every countdown in the fetch band (lines 219 and 281) is in the announcement band; the two differ exactly on (210, 240] |
| `Schedule.DueExample` | main.py:146-148 | A timeframe with now mod P = P - 170 is 170 s from its close and lies in both bands |
| `Schedule.Due` | main.py:144-150 | The checks in a band: each is the check of a table entry and lies in the band, every table entry in the band has its check there, and there are at most as many as table entries |
| `Schedule.DueConcat` | main.py:144-150 | Filtering a concatenated table filters each part in turn, so the table order is kept |
| `Schedule.FetchRefinesUpcoming` | main.py:278-282 | The fetched timeframes are exactly the announced ones that lie in the fetch band, in the same order |
| `Schedule.MinSleep` | main.py:167 | The computed sleep is at most the floor and at most every timeframe's countdown, equals one of them, and is positive when the floor is |
| `Schedule.LoopSleep` | main.py:288 | The loop's second cap by UPDATE_INTERVAL never changes the sleep; the sleep lies in (0, 60] |
| `Schedule.NoFineBandSkipped` | main.py:284-288 | A countdown above the fetch band is, after one sleep, still above it or inside it: no tick jumps over the band |
| `Schedule.NestedCountdown` | main.py:145-147 | For a period of k whole periods p, the countdown is never shorter than p's; once it is at most p, both bars close at the same instant |
| `Schedule.TableClosesWithShortest` | main.py:49-58 | On the bot's own table every period is a whole number of 2h periods. So no countdown is shorter than the 2h one, and a timeframe in the announcement band closes at the same instant as the 2h bar |
| `Bot.AlignedCandleAgrees` | main.py:216-217 | When the forming bar opened at the last period boundary, open time + P - now is the scheduler's countdown |
| `Bot.AlertExactly` | main.py:195-235 | An alert is raised iff a price and at least two candles came back, the forming (last) candle's recomputed countdown is in the fetch band, and its pattern is not 'None'. The alert carries that candle's classification |
| `Bot.DegradedDataSkipped` | main.py:196-206 | A missing price or fewer than two candles stop processing before classification |
| `Bot.WideBodyNeverAlerts` | main.py:219-224 | A forming bar whose body share is above 0.2 never triggers an alert |
| `Bot.SymbolTasks` | main.py:279-282 | One task per due check. A task is listed iff it carries the symbol and the timeframe of one of the checks |
| `Bot.SymbolTasksExactly` | main.py:279-282 | A symbol's tasks are exactly its pairs with the timeframes in the fetch band |
| `Bot.DuePairs` | main.py:277-282 | A tick has \|symbols\| × \|due timeframes\| tasks, and a (symbol, timeframe) pair is a task iff the symbol is listed, the timeframe is in the table and its countdown is in the fetch band |
| `Bot.TickConsistent` | main.py:270-288 | Every timeframe fetched in a tick is announced in the same tick; the sleep lies in (0, 60] and never passes a close |

The modelled operations and constants themselves are `Candles.Identify` (main.py:86-139), `Candles.PatternOf` (main.py:109-137), `Candles.WickSideOf` (main.py:99-107), the shares `Candles.Shape.BodyPct`, `Candles.Shape.UpperPct` and `Candles.Shape.LowerPct` (main.py:95-97), the wick-balance test `Candles.Shape.Balanced` (main.py:104, 115), the timeframe table `Schedule.Timeframes` (main.py:49-58), the announcement band `Schedule.InCoarseBand` (main.py:148), the fetch band `Schedule.InFineBand` (main.py:219, 281), `Schedule.UpcomingTimeframes` (main.py:141-150), `Schedule.FetchTimeframes` (main.py:278-282), the recomputed countdown `Bot.TimeToClose` (main.py:216-217), `Bot.Evaluate` (main.py:195-235) and `Bot.Tick` (main.py:270-288). The lemmas above state their properties.

`Candles.PositiveShare`, `Candles.ShareBounds`, `Schedule.ModSplit`, `Schedule.ModOffset`, `Schedule.MultipleMod`, `Schedule.MultipleApart`, `Schedule.NestedRemainder`, `Schedule.CountdownGap`, `Schedule.Regroup` and `Schedule.SplitProduct` are arithmetic helper lemmas: facts about real division and Euclidean division and remainder that the lemmas above use. They state nothing about the bot on their own.

### Notes on the code's behaviour

- For open 100, high 110, low 99 and last 100.2, the code returns ('Doji', 'Longer Upper Wick'), not a Gravestone Doji. The Gravestone rule needs a lower-wick share below 0.05, and here that share is 1/11 (`Candles.LongUpperWickDojiExample`).
- For open 100, high 101, low 90 and last 100.5, the lower wick is min(open, last) − low = 10. The bar is a Dragonfly Doji with a longer lower wick (`Candles.DragonflyExample`).
- Body and wicks alone do not decide the pattern. In the middle tier the code also reads the direction (last > open or last < open) (`Candles.DirectionMatters`).

## Left out

- Exchange calls are not modelled; their results are the parameters of `Bot.Evaluate`. This covers `fetch_ticker`, `fetch_ohlcv`, `fetch_time` and `load_markets`, along with the DataFrame construction and the millisecond-to-datetime conversion (main.py:195-213).
- The startup and hourly filtering of symbols against the exchange's market list (main.py:71-84, 252-261) is not modelled: the symbol list is a parameter.
- Telegram delivery and its three attempts with exponential backoff (main.py:173-190) are network I/O and are not modelled.
- Concurrency is not modelled, because its effect is scheduling, not values. This covers the asyncio semaphore of 10, `gather`, the background refresh task, and the recursive rate-limit retry with its 10-second sleep (main.py:237-241). The network, exchange and generic error handlers are also left out, because they only log.
- Presentation is not modelled: the Karachi timezone conversion, alert and announcement text (including the minute count `int(t/60)`), coloured printing, beeps and logging.
- Floating point: prices are exact reals and time is whole seconds. Rounding at threshold boundaries, and fractional timestamps from `now.timestamp()` and from the exchange clock, are not modelled.
- `Bot.Evaluate` takes the exchange clock as its own parameter, separate from the tick's instant. The model does not relate the two. In the code the second clock is read later than the first.
- `Schedule.NoFineBandSkipped` treats the time spent inside a tick as zero. A slow tick can still jump over a fetch band.
