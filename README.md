# Psychological levels and the breakout strategy, in Dafny

This project models the two pieces of sequential logic in the psy-level
breakout backtest, and proves properties about them.

The first piece is `PsychologicalLevels`, in `indicator/psy_levels.py`:

- `calc_psy_levels` finds every weekly session start in a frame's index. That is
  Saturday 22:00 UTC for `psy_type='crypto'` and Monday 00:00 UTC otherwise.
- For each start it collects, hour by hour, the highest High and the lowest Low
  of the rows from one hour before the start to six hours after it.
- It writes that band into the `psy_hi` and `psy_lo` columns of every row from
  the start up to the next start. For the last session, the range stops just
  before the last row of the frame, which keeps NaN levels.
- `generate_alerts` turns the crossings of Close over or under either level
  into a list of alerts.

The second piece is the `PsyLevelsStrategy` class, in `strategy.py`:

- `init` resamples the five-minute bars to hours and computes the crypto levels
  there. It then carries the levels back onto the five-minute bars, by reindex
  and forward fill.
- The live `next` runs bar by bar. It attaches the pending stop-loss and
  take-profit to a freshly filled trade, and skips bars without levels. It rolls
  the week over at Saturday 22:00 and then blocks trading for six hours. It
  trails the take-profit of an open trade, and otherwise enters on a breakout of
  the band with a risk-sized market order.

## Modelling choices

- **Timestamps** are whole minutes since 1970-01-01 00:00 UTC. Weekday, hour and
  minute are computed from the stamp; the epoch was a Thursday. Saturday 22:00
  is proved to be the stamps 4200 minutes into each epoch-aligned week.
- **Rows.** A frame is a sequence of `Bar(t, open, high, low, close, volume)`.
  The operations that need a sorted, duplicate-free index require `Increasing`.
  The resampled hourly frame is proved to have one.
- **Prices** are `real`, so every product by `(1 ± offset)` is exact. A NaN level
  is `None`.
- **calc_psy_levels.** `CalcPsyLevels` is imperative, like the source:
  - both level columns start as NaN arrays;
  - `CollectSessionBand` appends per-hour maxima and minima to `highs` and `lows`;
  - `AssignPeriod` overwrites the rows of a period in place.

  It is proved against the reference `LevelAt`. The price columns are an input
  value that the method cannot change, so "only `psy_hi` and `psy_lo` are
  written" holds by construction.
- **generate_alerts** is a sequence function over `Quote(t, close, psyHi, psyLo)`
  rows. A comparison with NaN is false, as in pandas.
- **The strategy class** holds:
  - the configuration, the bars and the two aligned level columns, as `const`
    fields;
  - `current_week`, `trade_blocked_until`, `pending_sl` and `pending_tp`, as
    mutable fields;
  - the orders placed so far, as a log.

  Each method is proved against the pure function `Step`, which takes the fields
  before the bar and gives the fields, trade and orders after it. The lemmas
  about `Step` carry the properties.
- **The engine.** The backtesting engine is reduced to the open trade, the
  equity and the order log. The open trade is `Trade(side, entryPrice, sl, tp)`
  or `None`. The account equity and the trade are passed to `Next` for each bar,
  and `Next` hands back the trade as the strategy leaves it. The order log holds
  `Buy(size)`, `Sell(size)` and `ClosePosition`.
- **ISO week.** `isocalendar()` is not modelled: the bar's ISO week number is a
  parameter of `Next`.
- **TypeError.** `update_trailing_tp` compares the new take-profit with the
  trade's `tp`. When `tp` is still unset, Python raises a `TypeError`. The model
  keeps this as the `TypeError` outcome, so `Step` reports `raised`.
- **Rounding.** The size is rounded with Python's `round`, half to even, once it
  is at least 1 (`strategy.py:149-150`). With the configured parameters, levels
  50000/49000, close 50010 and equity 1,000,000, the risk budget of 10,000 over
  the stop distance of 1014.9 gives 9.85..., so the bar buys
  round(10000/1014.9) = 10 units; see `DefaultLongBreakout`.
- **The last period** stops strictly before the last row (`< df.index[-1]`), so
  the final row never receives a band; see `LastRowUnassigned`.

## Model

| member | source | states |
|---|---|---|
| Bars.Saturday22IsWeekly | strategy.py:60-64 | A stamp is Saturday 22:00 UTC exactly when it lies 4200 minutes into an epoch-aligned week, so any two weekly anchors are whole weeks apart |
| Bars.Window | indicator/psy_levels.py:106 | The boolean mask `(index >= from) & (index < to)`; its own contract only bounds its length, and WindowSelects characterises which rows it keeps |
| Bars.WindowSelects | indicator/psy_levels.py:106 | The mask `(index >= from) & (index < to)` selects exactly the rows stamped in [from, to) |
| Bars.HighestHigh | indicator/psy_levels.py:109 | `max()` of the High column is missing exactly for no rows; otherwise it is some row's High and at least every row's High |
| Bars.LowestLow | indicator/psy_levels.py:110 | `min()` of the Low column is missing exactly for no rows; otherwise it is some row's Low and at most every row's Low |
| Bars.HighestHighSplit | indicator/psy_levels.py:112-124 | Taking the maximum piece by piece over adjacent windows gives the maximum over their union, with empty pieces contributing nothing |
| Bars.LowestLowSplit | indicator/psy_levels.py:112-125 | Taking the minimum piece by piece over adjacent windows gives the minimum over their union |
| PsyLevels.SessionStarts | indicator/psy_levels.py:80-89 | The session starts are exactly the index stamps on the convention's weekday, hour and minute; over a sorted index they are strictly ascending |
| PsyLevels.PeriodFrom | indicator/psy_levels.py:92-97 | Finds a session whose period [start_i, start_{i+1}) (or [start_last, last stamp)) contains the stamp, or reports that none does |
| PsyLevels.PeriodOfStamp | indicator/psy_levels.py:92-97 | With ascending starts the periods are disjoint, so a stamp in period i belongs to session i alone |
| PsyLevels.SessionBand | indicator/psy_levels.py:99-125 | Reference band of a session: the highest High and lowest Low over the whole window from one hour before the start to six hours after it, missing when the window is empty; no contract of its own, characterised by SessionBandExtremes and SessionBandOrdered, and CollectSessionBand is proved equal to it |
| PsyLevels.CollectSessionBand | indicator/psy_levels.py:99-125 | Collecting the hour before the start and the six hours after it, skipping empty hours, yields the highest High and lowest Low over the whole seven-hour window, and nothing when it holds no row |
| PsyLevels.AssignPeriod | indicator/psy_levels.py:127-130 | Writes the band into exactly the rows stamped in [start, end) of both columns and leaves every other row as it was |
| PsyLevels.LevelAt | indicator/psy_levels.py:92-130 | Reference level of a stamp: the band of the session whose period holds it, or missing; no contract of its own, characterised by LevelIsStepFunction, LastRowUnassigned and UnassignedBeforeFirstSession, and CalcPsyLevels is proved equal to it row by row |
| PsyLevels.CalcPsyLevels | indicator/psy_levels.py:62-132 | Every row's psy_hi and psy_lo are the band of the session whose period holds its stamp, or NaN if there is none or that session's window is empty |
| PsyLevels.LevelIsStepFunction | indicator/psy_levels.py:127-130 | Every row in session i's period carries session i's band |
| PsyLevels.LastRowUnassigned | indicator/psy_levels.py:94-97 | The last session's period stops before the final row, so the final row never receives a band |
| PsyLevels.UnassignedBeforeFirstSession | indicator/psy_levels.py:77-78 | Rows before the first session start, and all rows when there is no session start, stay NaN |
| PsyLevels.SessionBandExtremes | indicator/psy_levels.py:99-125 | A session's band is missing exactly when no row falls in [start-1h, start+6h); otherwise psy_hi is a High and psy_lo a Low of those rows, bounding all of them |
| PsyLevels.SessionBandOrdered | indicator/psy_levels.py:124-125 | If every row has High >= Low, every band has psy_hi >= psy_lo |
| PsyLevels.CrossingsBefore | indicator/psy_levels.py:140-149 | An alert group holds an alert for row i exactly when the 0/1 series of close > level steps the group's way at row i (i >= 1) |
| PsyLevels.CrossingsBeforeOrdered | indicator/psy_levels.py:144-149 | Over an increasing index, an alert group is in strictly increasing time order |
| PsyLevels.GenerateAlerts | indicator/psy_levels.py:135-180 | An alert is emitted exactly for each row and kind where that crossing happens, carrying the row's stamp and level |
| PsyLevels.CrossingsGrouped | indicator/psy_levels.py:152-178 | Each of the four groups holds alerts of its own kind only, in time order |
| PsyLevels.GenerateAlertsGrouped | indicator/psy_levels.py:140-180 | Alerts come as over-hi, over-lo, under-hi, then under-lo, each group in time order, and the first row never alerts |
| HourlyLevels.ResampleToHourly | strategy.py:46-54 | resample('1h') with first/max/min/last/sum as a fold over the rows; its own contract only bounds its length, and ResampleToHourlyShape and ResampleToHourlyAggregates characterise it |
| HourlyLevels.ResampleToHourlyShape | strategy.py:46-54 | The hourly frame is empty exactly when the input is, is sorted with labels on the hour, ends at the hour of the last input row and has a row for the hour of every input row |
| HourlyLevels.ResampleToHourlyAggregates | strategy.py:46-54 | Over a sorted index, each row of the hourly frame has Open, High, Low, Close and Volume equal to the first, max, min, last and sum over exactly the input rows of that hour, of which there is at least one |
| HourlyLevels.AggregateAbsorb | strategy.py:48-53 | One more row of the same hour updates the aggregate to the aggregate of the longer hour |
| HourlyLevels.AggregateOpen | strategy.py:48-53 | The first row of a new hour opens an aggregate of exactly that row |
| HourlyLevels.Reindexed | strategy.py:33-34 | `reindex(self.data.df.index)`: its contract gives one entry per bar; each entry is the hourly value at the bar's stamp, which ValueAt and ValueAtRow characterise |
| HourlyLevels.ValueAt | strategy.py:33 | Reindexing reads the hourly value at a row stamped exactly t, and NaN when there is no such row |
| HourlyLevels.ValueAtRow | strategy.py:33 | With a duplicate-free hourly index, reindexing at a row's own stamp reads that row's value |
| HourlyLevels.LastPresent | strategy.py:33 | The reference for ffill: the latest present entry at or before k, with only missing entries after it |
| HourlyLevels.ForwardFill | strategy.py:33-34 | `ffill()`: keeps the length of the column; ForwardFillLatest characterises each entry |
| HourlyLevels.AlignLevels | strategy.py:33-34 | `reindex(...).ffill()` of one level column onto the bars: one entry per bar; AlignLevelsLatest characterises each entry |
| HourlyLevels.ForwardFillLatest | strategy.py:33 | ffill gives each entry the latest present entry at or before it, and NaN when there is none |
| HourlyLevels.AlignLevelsLatest | strategy.py:33-34 | A bar's level is missing exactly when no bar up to it reindexes to a present hourly level; otherwise it is the level of the latest bar that does, so a NaN period inherits the previous level |
| Strategy.ComputeLevels | strategy.py:28-34 | init's level columns are the crypto psy levels of the hourly resample, reindexed and forward filled onto the bars |
| Strategy.ShouldUpdateWeeklyLevels | strategy.py:56-67 | The rollover never fires for the recorded week, always fires on the first bar, and otherwise fires exactly at Saturday 22:00 of a new week |
| Strategy.Attach | strategy.py:165-178 | Pending values fill only the trade's unset sl/tp and are then cleared; with no trade nothing changes; week and block fields are untouched |
| Strategy.UpdateTrailingTp | strategy.py:103-119 | Only tp changes, only at the profit mark and only to trailing_offset beyond the price; a long's tp never falls, a short's never rises; an unset tp at the mark raises TypeError |
| Strategy.BreakoutSide | strategy.py:121-131 | Long exactly when price >= psy_hi * (1 + entry_offset); short exactly when not long and price <= psy_lo * (1 - entry_offset) |
| Strategy.BreakoutBeyondBand | strategy.py:124-131 | With non-negative levels and offset, a long entry needs price >= psy_hi, a short needs price <= psy_lo, and a price inside the band never triggers |
| Strategy.RoundHalfEven | strategy.py:150 | Python's round: within one half of the input, and even on a tie |
| Strategy.RoundedSize | strategy.py:149-150 | Sizes below 1 are kept; sizes of at least 1 become a whole number within one half |
| Strategy.LossAtStop | strategy.py:147-150 | The number computed as budget / distance and rounded from one unit on, times the stop distance, is within half the stop distance of the risk budget, and equals the budget when that number is below one |
| Strategy.EntryFor | strategy.py:133-163 | No order when the stop is within 1e-8 of the fill; otherwise a buy for a long or a sell for a short, with the stop beyond the opposite level and the take-profit beyond the fill; the size is the risk budget over the stop distance, kept below one unit and rounded to a whole number within one half from one unit on |
| Strategy.EntryRiskSized | strategy.py:145-150 | For every entry placed, the size the strategy computes times the stop distance is within half the stop distance of equity * risk_per_trade, and equal to it when no rounding happened; for a whole-unit size this is the loss if the stop is hit |
| Strategy.Step | strategy.py:180-210 | The pure model of one call of next: attach, NaN guard, weekly rollover, block, trailing take-profit, breakout entry; no contract of its own, characterised by StepEntry, StepGuarded, StepTrailingMonotone, StepRollover and RolloverAtMostOncePerWeek, and PsyLevelsStrategy.Next is proved equal to it |
| Strategy.StepEntry | strategy.py:180-210 | At most one order per bar; an entry exactly when the bar has levels, no trade is open, there is no rollover, the bar is not blocked and the breakout and sizing yield one; its sl and tp become pending |
| Strategy.StepGuarded | strategy.py:187-202 | A bar without levels, or blocked, places no entry and changes no take-profit |
| Strategy.StepTrailingMonotone | strategy.py:204-207 | Over a whole bar, a trade with a take-profit keeps its side, fill and stop, and its tp moves only in its favour |
| Strategy.StepRollover | strategy.py:191-198 | The rollover fires exactly for a bar with levels on which should_update_weekly_levels holds; it records the ISO week, blocks for six hours and closes an open trade |
| Strategy.RolloverAtMostOncePerWeek | strategy.py:56-67 | Over bars of one ISO week the rollover fires at most once, and never once that week is recorded |
| Strategy.DefaultLongBreakout | strategy.py:133-163 | With the configured parameters, levels 50000/49000, close 50010 and equity 1,000,000, the bar buys 10 units with pending stop 48995.1 and take-profit 50510.1 |
| Strategy.PsyLevelsStrategy.constructor | strategy.py:26-44 | init: the level columns are the aligned crypto psy levels of the bars, and every state field starts unset |
| Strategy.PsyLevelsStrategy.SetSlTpForNewPosition | strategy.py:165-178 | The fields and the trade afterwards are those of Attach |
| Strategy.PsyLevelsStrategy.PositionSize | strategy.py:147-150 | The size computed is the risk budget over the stop distance, rounded half to even from one unit on: the size RoundedSize and LossAtStop describe |
| Strategy.PsyLevelsStrategy.PlaceBreakoutTrade | strategy.py:133-163 | Appends EntryFor's order and records its sl and tp as pending, or changes nothing when EntryFor gives none |
| Strategy.PsyLevelsStrategy.CheckBreakouts | strategy.py:121-131 | Places the entry of the breakout side, if any |
| Strategy.PsyLevelsStrategy.Next | strategy.py:180-210 | The fields, the trade, the raised flag and the appended orders are exactly those of Step for this bar |

## Left out

- `calc_dst` (indicator/psy_levels.py:23-58) is not modelled, because nothing calls it. The unused `colors` and `ONE_WEEK_MILLIS` fields are not modelled either.
- The index conversion and UTC localisation at indicator/psy_levels.py:70-74 are not modelled: stamps are UTC minutes from the start.
- The first `next` (strategy.py:74-101) is not modelled, because the second definition shadows it. `price_in_range` (strategy.py:69-72) is not modelled, because nothing calls it.
- HourlyLevels.ResampleToHourly: pandas also emits all-NaN rows for clock hours without data. The model has rows for hours that hold data only. For `calc_psy_levels` on the hourly frame this matters when the Saturday 22:00 hour has no data: pandas still has that row, so it starts a session (with the band of whatever data lies around it), while the model has no such stamp, so no session starts there and the previous period runs on to the next start.
- HourlyLevels.ResampleToHourly: the model is defined over a sorted index; pandas would also sort an unsorted one.
- Strategy.PsyLevelsStrategy.Next: the ISO week number is a parameter, because `isocalendar()` is not modelled.
- Strategy.PsyLevelsStrategy.Next: the engine's trade object is a value that is passed in and handed back. Aliasing between `self.trades[-1]` and the engine's own record is not captured.
- Strategy.PsyLevelsStrategy.Next: the engine's fills, equity accounting and order validation are not modelled. Equity and the open trade are inputs on each bar.
- Strategy.EntryRiskSized: the property is about the size number the strategy computes. The backtesting engine reads a size between 0 and 1 as a fraction of the available equity, not as units, so for such a size size * distance is not the loss at the stop; the engine is not part of this model.
- Strategy.RoundHalfEven: rounds the exact rational size. Python rounds the nearest binary float, which can differ on an exact tie.
- Strategy.MinRiskDistance is the rational 1/10^8, not the binary float 1e-8.
- PsyLevels.CalcPsyLevels: any `psy_type` other than 'crypto' selects the Monday 00:00 convention, as the source's `else` branch does.
- PsyLevels.GenerateAlerts: returns a sequence of alert records rather than a DataFrame, and the message text is the alert kind.
- The `print` debug output of the strategy is not modelled.
- `indicator/data_loader.py` (network fetches, cache files), `run_backtest.py` (engine wiring, plots, statistics) and `config.py` are not part of this model. The configured parameter values appear in `Strategy.Defaults`.
