// PsyLevelsStrategy (strategy.py): the bar-by-bar breakout state machine.
//
// The backtesting engine is reduced to what the strategy reads from it and
// asks of it: the open trade, if any (direction, fill price, stop-loss and
// take-profit), and the account equity come in with every bar; the orders the
// strategy places (market buy, market sell, close the position) are appended
// to a log. The trade record the strategy edits in place is passed in and
// handed back as a value.
module Strategy {
  import opened Bars
  import PsyLevels
  import HourlyLevels

  /** The five strategy parameters (class attributes read from STRATEGY_CONFIG). */
  datatype Config = Config(entryOffset: real, takeProfit: real, riskPerTrade: real,
                           slOffset: real, trailingOffset: real)

  /** The values config.py sets. */
  const Defaults: Config := Config(0.0001, 0.01, 0.01, 0.0001, 0.005)

  /** After a weekly rollover trading is blocked for six hours. */
  const CooldownMinutes: int := 6 * MinutesPerHour

  /** A stop closer to the fill than this places no order. */
  const MinRiskDistance: real := 0.00000001

  datatype Side = Long | Short

  /** The engine's open trade: direction, fill price, and the stop-loss and
      take-profit the strategy may set on it (None until set). */
  datatype Trade = Trade(side: Side, entryPrice: real, sl: Option<real>, tp: Option<real>)

  /** An order handed to the engine. A size of at least 1 is a whole number of
      units; a size below 1 is passed on as it is. */
  datatype Order = Buy(size: real) | Sell(size: real) | ClosePosition

  /** The strategy's own fields between bars. */
  datatype Memory = Memory(currentWeek: Option<int>, blockedUntil: Option<int>,
                           pendingSl: Option<real>, pendingTp: Option<real>)

  /** What init leaves in the fields. */
  const Initial: Memory := Memory(None, None, None, None)

  /** What next reads of the current bar: its stamp, Close, ISO week number and
      the two aligned level values (None for NaN). */
  datatype Tick = Tick(t: int, close: real, isoWeek: int, psyHi: Option<real>, psyLo: Option<real>)

  function Abs(x: real): real {
    if x < 0.0 then -x else x
  }

  // ---------------------------------------------------------------------
  // The level columns init computes

  /** calc_psy_levels' psy_hi column over the hourly frame (crypto sessions). */
  function HourlyHi(hourly: seq<Bar>): seq<Option<real>> {
    seq(|hourly|, k requires 0 <= k < |hourly| => PsyLevels.HiOf(PsyLevels.LevelAt(hourly, PsyLevels.Crypto, hourly[k].t)))
  }

  /** calc_psy_levels' psy_lo column over the hourly frame (crypto sessions). */
  function HourlyLo(hourly: seq<Bar>): seq<Option<real>> {
    seq(|hourly|, k requires 0 <= k < |hourly| => PsyLevels.LoOf(PsyLevels.LevelAt(hourly, PsyLevels.Crypto, hourly[k].t)))
  }

  /** psy_hi_series: the weekly high level of the hourly resample, carried onto the bars. */
  function HiLevels(data: seq<Bar>): seq<Option<real>> {
    var hourly := HourlyLevels.ResampleToHourly(data);
    HourlyLevels.AlignLevels(hourly, HourlyHi(hourly), data)
  }

  /** psy_lo_series: the weekly low level of the hourly resample, carried onto the bars. */
  function LoLevels(data: seq<Bar>): seq<Option<real>> {
    var hourly := HourlyLevels.ResampleToHourly(data);
    HourlyLevels.AlignLevels(hourly, HourlyLo(hourly), data)
  }

  /** The level computation of init: resample_to_hourly, calc_psy_levels with
      psy_type='crypto', then reindex + ffill of both columns onto the bars. */
  method ComputeLevels(data: seq<Bar>) returns (hi: seq<Option<real>>, lo: seq<Option<real>>)
    requires Increasing(data)
    ensures hi == HiLevels(data) && lo == LoLevels(data)
  {
    var hourly := HourlyLevels.ResampleToHourly(data);
    HourlyLevels.ResampleToHourlyIncreasing(data);
    var hourlyHi, hourlyLo := PsyLevels.CalcPsyLevels(hourly, PsyLevels.Crypto);
    assert hourlyHi == HourlyHi(hourly);
    assert hourlyLo == HourlyLo(hourly);
    hi := HourlyLevels.AlignLevels(hourly, hourlyHi, data);
    lo := HourlyLevels.AlignLevels(hourly, hourlyLo, data);
  }

  // ---------------------------------------------------------------------
  // The pieces of next

  /** should_update_weekly_levels: new levels are taken at Saturday 22:00 UTC, or
      on the first bar seen, unless the bar's ISO week is the one already recorded. */
  function ShouldUpdateWeeklyLevels(currentWeek: Option<int>, t: int, isoWeek: int): (r: bool)
    ensures r ==> currentWeek != Some(isoWeek)
    ensures currentWeek.None? ==> r
    ensures r && currentWeek.Some? ==> t % 10080 == 4200
    ensures currentWeek.Some? && currentWeek != Some(isoWeek) && t % 10080 == 4200 ==> r
  {
    Saturday22IsWeekly(t);
    (IsSaturday22(t) || currentWeek.None?) && currentWeek != Some(isoWeek)
  }

  /** `trade_blocked_until and current_time < trade_blocked_until`. */
  predicate Blocked(blockedUntil: Option<int>, t: int) {
    blockedUntil.Some? && t < blockedUntil.value
  }

  datatype Attached = Attached(memory: Memory, position: Option<Trade>)

  /** set_sl_tp_for_new_position: with an open trade and something pending, the
      pending values fill the trade's stop-loss and take-profit where those are
      still unset, and both pending slots are cleared; otherwise nothing changes. */
  function Attach(m: Memory, position: Option<Trade>): (r: Attached)
    ensures r.memory.currentWeek == m.currentWeek && r.memory.blockedUntil == m.blockedUntil
    ensures position.None? ==> r == Attached(m, position)
    ensures position.Some? ==> r.memory.pendingSl.None? && r.memory.pendingTp.None?
    ensures position.Some? ==>
      && r.position.Some?
      && r.position.value.side == position.value.side
      && r.position.value.entryPrice == position.value.entryPrice
      && r.position.value.sl == (if position.value.sl.Some? then position.value.sl else m.pendingSl)
      && r.position.value.tp == (if position.value.tp.Some? then position.value.tp else m.pendingTp)
  {
    if position.Some? && (m.pendingSl.Some? || m.pendingTp.Some?) then
      var t := position.value;
      var sl := if t.sl.None? && m.pendingSl.Some? then m.pendingSl else t.sl;
      var tp := if t.tp.None? && m.pendingTp.Some? then m.pendingTp else t.tp;
      Attached(m.(pendingSl := None, pendingTp := None), Some(t.(sl := sl, tp := tp)))
    else
      Attached(m, position)
  }

  /** The profit mark of update_trailing_tp: the price has moved take_profit in the
      trade's favour from the fill. */
  predicate ThresholdReached(cfg: Config, trade: Trade, price: real) {
    match trade.side
    case Long => price >= trade.entryPrice * (1.0 + cfg.takeProfit)
    case Short => price <= trade.entryPrice * (1.0 - cfg.takeProfit)
  }

  /** The take-profit trailing_offset beyond the price, on the trade's side. */
  function TrailTarget(cfg: Config, side: Side, price: real): real {
    match side
    case Long => price * (1.0 + cfg.trailingOffset)
    case Short => price * (1.0 - cfg.trailingOffset)
  }

  /** a is further in the trade's favour than b. */
  predicate Beyond(side: Side, a: real, b: real) {
    match side
    case Long => a > b
    case Short => a < b
  }

  /** The outcome of update_trailing_tp: the trade afterwards, or the TypeError
      Python raises when it compares the new take-profit with an unset one. */
  datatype Trailed = Trailed(trade: Trade) | TypeError

  /** update_trailing_tp: once the price reaches the profit mark, the take-profit
      moves to trailing_offset beyond the price if that is further in the trade's
      favour. */
  function UpdateTrailingTp(cfg: Config, trade: Trade, price: real): (r: Trailed)
    ensures r.TypeError? <==> trade.tp.None? && ThresholdReached(cfg, trade, price)
    ensures r.Trailed? ==> r.trade.side == trade.side && r.trade.entryPrice == trade.entryPrice
                           && r.trade.sl == trade.sl
    ensures r.Trailed? && r.trade.tp != trade.tp ==>
      ThresholdReached(cfg, trade, price) && r.trade.tp == Some(TrailTarget(cfg, trade.side, price))
    ensures r.Trailed? && trade.tp.Some? ==>
      && r.trade.tp.Some?
      && (trade.side == Long ==> r.trade.tp.value >= trade.tp.value)
      && (trade.side == Short ==> r.trade.tp.value <= trade.tp.value)
    ensures trade.tp.Some? && ThresholdReached(cfg, trade, price)
            && Beyond(trade.side, TrailTarget(cfg, trade.side, price), trade.tp.value) ==>
      r == Trailed(trade.(tp := Some(TrailTarget(cfg, trade.side, price))))
  {
    if !ThresholdReached(cfg, trade, price) then Trailed(trade)
    else
      var newTp := TrailTarget(cfg, trade.side, price);
      if trade.tp.None? then TypeError
      else if Beyond(trade.side, newTp, trade.tp.value) then Trailed(trade.(tp := Some(newTp)))
      else Trailed(trade)
  }

  /** The two thresholds of check_breakouts: long at or above entry_offset over
      psy_hi, otherwise short at or below entry_offset under psy_lo. */
  function BreakoutSide(cfg: Config, price: real, hi: real, lo: real): (r: Option<Side>)
    ensures r == Some(Long) <==> price >= hi * (1.0 + cfg.entryOffset)
    ensures r == Some(Short) <==> price < hi * (1.0 + cfg.entryOffset) && price <= lo * (1.0 - cfg.entryOffset)
  {
    if price >= hi * (1.0 + cfg.entryOffset) then Some(Long)
    else if price <= lo * (1.0 - cfg.entryOffset) then Some(Short)
    else None
  }

  /** With non-negative levels and offset, an entry is only ever taken beyond the
      band: long at or above psy_hi, short at or below psy_lo. A price strictly
      inside the band never triggers. */
  lemma BreakoutBeyondBand(cfg: Config, price: real, hi: real, lo: real)
    requires cfg.entryOffset >= 0.0 && hi >= 0.0 && lo >= 0.0
    ensures BreakoutSide(cfg, price, hi, lo) == Some(Long) ==> price >= hi
    ensures BreakoutSide(cfg, price, hi, lo) == Some(Short) ==> price <= lo
    ensures lo < price < hi ==> BreakoutSide(cfg, price, hi, lo).None?
  {
    assert hi * (1.0 + cfg.entryOffset) == hi + hi * cfg.entryOffset;
    assert lo * (1.0 - cfg.entryOffset) == lo - lo * cfg.entryOffset;
    assert hi * cfg.entryOffset >= 0.0 && lo * cfg.entryOffset >= 0.0;
  }

  /** Python's round on a number: the nearest integer, ties to the even one. */
  function RoundHalfEven(x: real): (r: int)
    ensures -0.5 <= r as real - x <= 0.5
    ensures (r as real - x == 0.5 || x - r as real == 0.5) ==> r % 2 == 0
  {
    var f := x.Floor;
    var d := x - f as real;
    if d < 0.5 then f
    else if d > 0.5 then f + 1
    else if f % 2 == 0 then f
    else f + 1
  }

  predicate IsWhole(x: real) {
    x == x.Floor as real
  }

  /** The stop-loss of place_breakout_trade: sl_offset below psy_lo for a long,
      above psy_hi for a short. */
  function StopFor(cfg: Config, side: Side, hi: real, lo: real): real {
    match side
    case Long => lo * (1.0 - cfg.slOffset)
    case Short => hi * (1.0 + cfg.slOffset)
  }

  /** The take-profit desired at entry: take_profit beyond the fill price. */
  function TakeProfitFor(cfg: Config, side: Side, fill: real): real {
    match side
    case Long => fill * (1.0 + cfg.takeProfit)
    case Short => fill * (1.0 - cfg.takeProfit)
  }

  /** The size of place_breakout_trade before rounding: the risk budget over the distance to the stop. */
  function RawSize(cfg: Config, equity: real, distance: real): real
    requires distance > 0.0
  {
    equity * cfg.riskPerTrade / distance
  }

  /** Sizes of at least one unit are rounded to a whole number, smaller ones kept. */
  function RoundedSize(raw: real): (size: real)
    ensures raw < 1.0 ==> size == raw
    ensures raw >= 1.0 ==> IsWhole(size) && -0.5 <= size - raw <= 0.5
  {
    if raw >= 1.0 then RoundHalfEven(raw) as real else raw
  }

  /** The size the strategy computes, times the stop distance, is within half the
      distance of the risk budget, and equals the budget when the size was not
      rounded. For a whole-unit size this product is the loss if the stop is hit. */
  predicate RiskSized(size: real, distance: real, budget: real) {
    && distance > 0.0
    && -distance / 2.0 <= size * distance - budget <= distance / 2.0
    && (budget / distance < 1.0 ==> size * distance == budget)
  }

  /** Rounding the raw size budget / distance by at most half a unit moves
      size * distance by at most half the stop distance away from the budget. */
  lemma LossAtStop(budget: real, distance: real)
    requires distance > 0.0
    ensures RiskSized(RoundedSize(budget / distance), distance, budget)
  {
    var raw := budget / distance;
    var size := RoundedSize(raw);
    QuotientTimes(budget, distance);
    LossOfError(size, raw, distance, budget);
    if raw < 1.0 {
      assert size == raw;
    }
  }

  lemma QuotientTimes(a: real, b: real)
    requires b > 0.0
    ensures a / b * b == a
  {
  }

  /** A size within half a unit of raw, times d, is within d / 2 of raw * d. */
  lemma LossOfError(size: real, raw: real, d: real, budget: real)
    requires d > 0.0 && -0.5 <= size - raw <= 0.5 && raw * d == budget
    ensures -d / 2.0 <= size * d - budget <= d / 2.0
  {
    var e := size - raw;
    assert size * d == raw * d + e * d;
    assert size * d - budget == e * d;
    if e >= 0.0 {
      assert e * d <= 0.5 * d;
    } else {
      assert -0.5 * d <= e * d;
    }
  }

  /** The order and the pending stop-loss and take-profit of one entry. */
  datatype Entry = Entry(order: Order, sl: real, tp: real)

  /** place_breakout_trade: no order when the stop is closer than 1e-8 to the fill;
      otherwise a market order on the breakout's side, sized by the risk budget over
      the distance to the stop (rounded to a whole number when at least one unit),
      with the stop and take-profit to attach on the next bar. */
  function EntryFor(cfg: Config, side: Side, fill: real, hi: real, lo: real, equity: real): (r: Option<Entry>)
    ensures r.None? <==> Abs(fill - StopFor(cfg, side, hi, lo)) < MinRiskDistance
    ensures r.Some? ==> r.value.sl == StopFor(cfg, side, hi, lo) && r.value.tp == TakeProfitFor(cfg, side, fill)
    ensures r.Some? ==> (side == Long ==> r.value.order.Buy?) && (side == Short ==> r.value.order.Sell?)
    ensures r.Some? ==>
      var raw := RawSize(cfg, equity, Abs(fill - StopFor(cfg, side, hi, lo)));
      && (raw < 1.0 ==> r.value.order.size == raw)
      && (raw >= 1.0 ==> IsWhole(r.value.order.size) && -0.5 <= r.value.order.size - raw <= 0.5)
  {
    var sl := StopFor(cfg, side, hi, lo);
    var distance := Abs(fill - sl);
    if distance < MinRiskDistance then None
    else
      var size := RoundedSize(RawSize(cfg, equity, distance));
      var order := if side == Long then Buy(size) else Sell(size);
      Some(Entry(order, sl, TakeProfitFor(cfg, side, fill)))
  }

  /** An entry that is placed, spelled out field by field. */
  lemma EntryForPlaced(cfg: Config, side: Side, fill: real, hi: real, lo: real, equity: real)
    requires Abs(fill - StopFor(cfg, side, hi, lo)) >= MinRiskDistance
    ensures var size := RoundedSize(RawSize(cfg, equity, Abs(fill - StopFor(cfg, side, hi, lo))));
      EntryFor(cfg, side, fill, hi, lo, equity)
      == Some(Entry(if side == Long then Buy(size) else Sell(size),
                    StopFor(cfg, side, hi, lo), TakeProfitFor(cfg, side, fill)))
  {
  }

  /** The size of every entry placed, times its stop distance, equals the risk
      budget equity * risk_per_trade for a fractional size and is within half the
      stop distance of it once the size is rounded. */
  lemma EntryRiskSized(cfg: Config, side: Side, fill: real, hi: real, lo: real, equity: real)
    requires EntryFor(cfg, side, fill, hi, lo, equity).Some?
    ensures RiskSized(EntryFor(cfg, side, fill, hi, lo, equity).value.order.size,
                      Abs(fill - StopFor(cfg, side, hi, lo)), equity * cfg.riskPerTrade)
  {
    var distance := Abs(fill - StopFor(cfg, side, hi, lo));
    var budget := equity * cfg.riskPerTrade;
    var size := EntryFor(cfg, side, fill, hi, lo, equity).value.order.size;
    assert size == RoundedSize(budget / distance) by {
      EntryForPlaced(cfg, side, fill, hi, lo, equity);
      assert RawSize(cfg, equity, distance) == budget / distance;
    }
    LossAtStop(budget, distance);
  }

  /** check_breakouts followed by place_breakout_trade. */
  function BreakoutEntry(cfg: Config, price: real, hi: real, lo: real, equity: real): Option<Entry> {
    match BreakoutSide(cfg, price, hi, lo)
    case None => None
    case Some(side) => EntryFor(cfg, side, price, hi, lo, equity)
  }

  /** The fields after an entry was or was not placed. */
  function AfterEntry(m: Memory, e: Option<Entry>): Memory {
    if e.Some? then m.(pendingSl := Some(e.value.sl), pendingTp := Some(e.value.tp)) else m
  }

  function EntryOrders(e: Option<Entry>): seq<Order> {
    if e.Some? then [e.value.order] else []
  }

  // ---------------------------------------------------------------------
  // One call of next

  /** The outcome of one bar: the new fields, the trade handed back to the engine,
      the orders placed, whether a TypeError was raised, and whether the weekly
      rollover fired. */
  datatype StepResult = StepResult(memory: Memory, position: Option<Trade>, orders: seq<Order>,
                                   raised: bool, rolledOver: bool)

  /** The fields after the rollover check of a bar with levels. */
  function Rolled(m: Memory, tick: Tick): Memory {
    if ShouldUpdateWeeklyLevels(m.currentWeek, tick.t, tick.isoWeek) then
      m.(currentWeek := Some(tick.isoWeek), blockedUntil := Some(tick.t + CooldownMinutes))
    else m
  }

  /** next (strategy.py:180-210): attach pending SL/TP, skip a bar without levels,
      roll the week over, stop while blocked, trail the take-profit of an open
      trade, or look for a breakout entry. */
  function Step(cfg: Config, m: Memory, tick: Tick, equity: real, position: Option<Trade>): StepResult {
    var a := Attach(m, position);
    var pos := a.position;
    if tick.psyHi.None? || tick.psyLo.None? then StepResult(a.memory, pos, [], false, false)
    else
      var roll := ShouldUpdateWeeklyLevels(a.memory.currentWeek, tick.t, tick.isoWeek);
      var m2 := Rolled(a.memory, tick);
      if Blocked(m2.blockedUntil, tick.t) then
        StepResult(m2, pos, if roll && pos.Some? then [ClosePosition] else [], false, roll)
      else if pos.Some? then
        match UpdateTrailingTp(cfg, pos.value, tick.close)
        case TypeError => StepResult(m2, pos, [], true, roll)
        case Trailed(t) => StepResult(m2, Some(t), [], false, roll)
      else
        var e := BreakoutEntry(cfg, tick.close, tick.psyHi.value, tick.psyLo.value, equity);
        StepResult(AfterEntry(m2, e), pos, EntryOrders(e), false, roll)
  }

  /** The orders contain a market entry. */
  predicate PlacesEntry(orders: seq<Order>) {
    exists o :: o in orders && (o.Buy? || o.Sell?)
  }

  /** Entries: at most one order per bar, and an entry is placed exactly when the
      bar has both levels, the engine reports no open trade, the week does not roll
      over, the bar is not blocked and the breakout check and sizing yield an
      entry; that entry's order is then the bar's only order and its stop-loss and
      take-profit become pending. */
  lemma {:induction false} StepEntry(cfg: Config, m: Memory, tick: Tick, equity: real, position: Option<Trade>)
    ensures var r := Step(cfg, m, tick, equity, position);
      && |r.orders| <= 1
      && (PlacesEntry(r.orders) <==>
            && position.None? && tick.psyHi.Some? && tick.psyLo.Some?
            && !ShouldUpdateWeeklyLevels(m.currentWeek, tick.t, tick.isoWeek)
            && !Blocked(m.blockedUntil, tick.t)
            && BreakoutEntry(cfg, tick.close, tick.psyHi.value, tick.psyLo.value, equity).Some?)
      && (PlacesEntry(r.orders) ==>
            var e := BreakoutEntry(cfg, tick.close, tick.psyHi.value, tick.psyLo.value, equity).value;
            r.orders == [e.order] && r.memory.pendingSl == Some(e.sl) && r.memory.pendingTp == Some(e.tp))
  {
    var r := Step(cfg, m, tick, equity, position);
    if position.None? && tick.psyHi.Some? && tick.psyLo.Some?
       && !ShouldUpdateWeeklyLevels(m.currentWeek, tick.t, tick.isoWeek) && !Blocked(m.blockedUntil, tick.t) {
      var e := BreakoutEntry(cfg, tick.close, tick.psyHi.value, tick.psyLo.value, equity);
      assert r.orders == EntryOrders(e);
      if e.Some? {
        assert e.value.order in r.orders;
      }
    } else if PlacesEntry(r.orders) {
      var o :| o in r.orders && (o.Buy? || o.Sell?);
      assert false;
    }
  }

  /** A bar without both levels, or blocked after the rollover check, places no
      entry, leaves the trade as the pending attachment left it (no trailing) and
      leaves the pending slots as the attachment left them. */
  lemma StepGuarded(cfg: Config, m: Memory, tick: Tick, equity: real, position: Option<Trade>)
    requires tick.psyHi.None? || tick.psyLo.None? || Blocked(Rolled(m, tick).blockedUntil, tick.t)
    ensures var r := Step(cfg, m, tick, equity, position);
      var a := Attach(m, position);
      && !PlacesEntry(r.orders) && !r.raised
      && r.position == a.position
      && r.memory.pendingSl == a.memory.pendingSl && r.memory.pendingTp == a.memory.pendingTp
  {
  }

  /** Trailing across a whole bar: when the engine's trade already has a
      take-profit, next never raises, keeps the trade's side, fill price and
      stop-loss, and moves the take-profit only in the trade's favour. */
  lemma StepTrailingMonotone(cfg: Config, m: Memory, tick: Tick, equity: real, position: Option<Trade>)
    requires position.Some? && position.value.tp.Some?
    ensures var r := Step(cfg, m, tick, equity, position);
      && !r.raised && r.position.Some?
      && r.position.value.side == position.value.side
      && r.position.value.entryPrice == position.value.entryPrice
      && (position.value.sl.Some? ==> r.position.value.sl == position.value.sl)
      && (position.value.side == Long ==> r.position.value.tp.value >= position.value.tp.value)
      && (position.value.side == Short ==> r.position.value.tp.value <= position.value.tp.value)
  {
    var a := Attach(m, position);
    assert a.position.value.tp == position.value.tp;
  }

  /** The weekly rollover fires exactly when the bar has both levels and
      should_update_weekly_levels holds; it then records the bar's ISO week,
      blocks trading for six hours from the bar, and closes the trade if one is
      open; otherwise the week and block fields are left as they were. */
  lemma StepRollover(cfg: Config, m: Memory, tick: Tick, equity: real, position: Option<Trade>)
    ensures var r := Step(cfg, m, tick, equity, position);
      && (r.rolledOver <==>
            tick.psyHi.Some? && tick.psyLo.Some? && ShouldUpdateWeeklyLevels(m.currentWeek, tick.t, tick.isoWeek))
      && (r.rolledOver ==>
            && r.memory.currentWeek == Some(tick.isoWeek)
            && r.memory.blockedUntil == Some(tick.t + CooldownMinutes)
            && r.orders == (if position.Some? then [ClosePosition] else [])
            && r.position == Attach(m, position).position)
      && (!r.rolledOver ==> r.memory.currentWeek == m.currentWeek && r.memory.blockedUntil == m.blockedUntil)
  {
  }

  /** What the engine hands next for one bar. */
  datatype BarInput = BarInput(tick: Tick, equity: real, position: Option<Trade>)

  /** The number of weekly rollovers over a run of bars, starting from fields m. */
  function Rollovers(cfg: Config, m: Memory, inputs: seq<BarInput>): nat
    decreases |inputs|
  {
    if inputs == [] then 0
    else
      var r := Step(cfg, m, inputs[0].tick, inputs[0].equity, inputs[0].position);
      (if r.rolledOver then 1 else 0) + Rollovers(cfg, r.memory, inputs[1..])
  }

  /** Over a run of bars that all fall in one ISO week the rollover fires at most
      once, and not at all when that week is already recorded. */
  lemma {:induction false} RolloverAtMostOncePerWeek(cfg: Config, m: Memory, inputs: seq<BarInput>, week: int)
    requires forall k :: 0 <= k < |inputs| ==> inputs[k].tick.isoWeek == week
    ensures Rollovers(cfg, m, inputs) <= 1
    ensures m.currentWeek == Some(week) ==> Rollovers(cfg, m, inputs) == 0
    decreases |inputs|
  {
    if inputs != [] {
      var b := inputs[0];
      var r := Step(cfg, m, b.tick, b.equity, b.position);
      StepRollover(cfg, m, b.tick, b.equity, b.position);
      RolloverAtMostOncePerWeek(cfg, r.memory, inputs[1..], week);
    }
  }

  /** A long breakout with the values of config.py: levels 50000 / 49000, close
      50010 (above 50000 * 1.0001 = 50005), equity 1,000,000. The stop is
      49000 * 0.9999 = 48995.1, so the loss per unit is 1014.9 and the risk budget
      of 10,000 buys 9.85... units, rounded to 10; the take-profit is
      50010 * 1.01 = 50510.1. */
  lemma DefaultLongBreakout(week: int, t: int, blockedUntil: int)
    requires blockedUntil <= t
    ensures var m := Memory(Some(week), Some(blockedUntil), None, None);
      var r := Step(Defaults, m, Tick(t, 50010.0, week, Some(50000.0), Some(49000.0)), 1000000.0, None);
      && r.orders == [Buy(10.0)]
      && r.memory == m.(pendingSl := Some(48995.1), pendingTp := Some(50510.1))
      && r.position.None? && !r.raised && !r.rolledOver
  {
    var cfg := Defaults;
    assert BreakoutSide(cfg, 50010.0, 50000.0, 49000.0) == Some(Long);
    assert StopFor(cfg, Long, 50000.0, 49000.0) == 48995.1;
    var raw := RawSize(cfg, 1000000.0, 1014.9);
    assert raw == 10000.0 / 1014.9;
    assert 9.5 < raw < 10.5;
    var n := RoundHalfEven(raw);
    assert n == 10;
    assert RoundedSize(raw) == 10.0;
  }

  // ---------------------------------------------------------------------
  // The strategy object

  class PsyLevelsStrategy {
    const cfg: Config
    /** The five-minute frame the engine iterates over. */
    const data: seq<Bar>
    /** The aligned level columns init computes, one entry per bar of data. */
    const psyHi: seq<Option<real>>
    const psyLo: seq<Option<real>>

    var currentWeek: Option<int>
    var tradeBlockedUntil: Option<int>
    var pendingSl: Option<real>
    var pendingTp: Option<real>
    /** Every order handed to the engine so far. */
    var orders: seq<Order>

    predicate Valid()
      reads this
    {
      |psyHi| == |data| && |psyLo| == |data|
    }

    function State(): Memory
      reads this
    {
      Memory(currentWeek, tradeBlockedUntil, pendingSl, pendingTp)
    }

    /** The bar next sees at position i of the frame. */
    function TickAt(i: nat, isoWeek: int): Tick
      requires Valid() && i < |data|
      reads this
    {
      Tick(data[i].t, data[i].close, isoWeek, psyHi[i], psyLo[i])
    }

    /** init: resample the bars to hours, compute the crypto psy levels there, and
        carry them back onto the bars by reindex + forward fill. */
    constructor (cfg: Config, data: seq<Bar>)
      requires Increasing(data)
      ensures Valid() && this.cfg == cfg && this.data == data
      ensures psyHi == HiLevels(data) && psyLo == LoLevels(data)
      ensures State() == Initial && orders == []
    {
      var hi, lo := ComputeLevels(data);
      this.cfg := cfg;
      this.data := data;
      psyHi := hi;
      psyLo := lo;
      currentWeek := None;
      tradeBlockedUntil := None;
      pendingSl := None;
      pendingTp := None;
      orders := [];
    }

    /** set_sl_tp_for_new_position. */
    method SetSlTpForNewPosition(position: Option<Trade>) returns (trade: Option<Trade>)
      modifies this
      ensures Attached(State(), trade) == Attach(old(State()), position)
      ensures orders == old(orders)
    {
      trade := position;
      if position.Some? && (pendingSl.Some? || pendingTp.Some?) {
        var t := position.value;
        if t.sl.None? && pendingSl.Some? {
          t := t.(sl := pendingSl);
        }
        if t.tp.None? && pendingTp.Some? {
          t := t.(tp := pendingTp);
        }
        trade := Some(t);
        pendingSl := None;
        pendingTp := None;
      }
    }

    /** The sizing step of place_breakout_trade: the risk budget over the stop
        distance, rounded half to even once it is at least one unit. */
    method PositionSize(equity: real, sizeDiff: real) returns (size: real)
      requires sizeDiff >= MinRiskDistance
      ensures size == RoundedSize(RawSize(cfg, equity, sizeDiff))
    {
      var riskCap := equity * cfg.riskPerTrade;
      size := riskCap / sizeDiff;
      assert size == RawSize(cfg, equity, sizeDiff);
      if size >= 1.0 {
        size := RoundHalfEven(size) as real;
      }
    }

    /** place_breakout_trade. */
    method PlaceBreakoutTrade(side: Side, fillPrice: real, hi: real, lo: real, equity: real)
      modifies this
      ensures State() == AfterEntry(old(State()), EntryFor(cfg, side, fillPrice, hi, lo, equity))
      ensures orders == old(orders) + EntryOrders(EntryFor(cfg, side, fillPrice, hi, lo, equity))
    {
      var sl: real;
      var sizeDiff: real;
      if side == Long {
        sl := lo * (1.0 - cfg.slOffset);
        sizeDiff := Abs(fillPrice - sl);
      } else {
        sl := hi * (1.0 + cfg.slOffset);
        sizeDiff := Abs(sl - fillPrice);
      }
      assert sl == StopFor(cfg, side, hi, lo) && sizeDiff == Abs(fillPrice - sl);
      if sizeDiff < MinRiskDistance {
        assert EntryFor(cfg, side, fillPrice, hi, lo, equity).None?;
        return;
      }
      var size := PositionSize(equity, sizeDiff);
      var desiredTp: real;
      var order: Order;
      if side == Long {
        desiredTp := fillPrice * (1.0 + cfg.takeProfit);
        order := Buy(size);
      } else {
        desiredTp := fillPrice * (1.0 - cfg.takeProfit);
        order := Sell(size);
      }
      assert desiredTp == TakeProfitFor(cfg, side, fillPrice);
      EntryForPlaced(cfg, side, fillPrice, hi, lo, equity);
      assert EntryFor(cfg, side, fillPrice, hi, lo, equity) == Some(Entry(order, sl, desiredTp));
      orders := orders + [order];
      pendingSl := Some(sl);
      pendingTp := Some(desiredTp);
    }

    /** check_breakouts. */
    method CheckBreakouts(price: real, hi: real, lo: real, equity: real)
      modifies this
      ensures State() == AfterEntry(old(State()), BreakoutEntry(cfg, price, hi, lo, equity))
      ensures orders == old(orders) + EntryOrders(BreakoutEntry(cfg, price, hi, lo, equity))
    {
      var buyBreakout := hi * (1.0 + cfg.entryOffset);
      var sellBreakout := lo * (1.0 - cfg.entryOffset);
      if price >= buyBreakout {
        PlaceBreakoutTrade(Long, price, hi, lo, equity);
      } else if price <= sellBreakout {
        PlaceBreakoutTrade(Short, price, hi, lo, equity);
      }
    }

    /** next, called by the engine for bar i with that bar's ISO week number, the
        account equity and the open trade; returns the trade as the strategy leaves
        it and whether a TypeError ended the call. */
    method Next(i: nat, isoWeek: int, equity: real, position: Option<Trade>) returns (trade: Option<Trade>, raised: bool)
      requires Valid() && i < |data|
      modifies this
      ensures var r := Step(cfg, old(State()), TickAt(i, isoWeek), equity, position);
        && State() == r.memory && trade == r.position && raised == r.raised
        && orders == old(orders) + r.orders
    {
      var currentTime := data[i].t;
      var price := data[i].close;
      raised := false;
      trade := SetSlTpForNewPosition(position);
      ghost var attached := Attach(old(State()), position);
      assert State() == attached.memory && trade == attached.position;
      if psyHi[i].None? || psyLo[i].None? {
        return;
      }
      ghost var rolled := Rolled(State(), TickAt(i, isoWeek));
      if ShouldUpdateWeeklyLevels(currentWeek, currentTime, isoWeek) {
        if trade.Some? {
          orders := orders + [ClosePosition];
        }
        currentWeek := Some(isoWeek);
        tradeBlockedUntil := Some(currentTime + CooldownMinutes);
      }
      assert State() == rolled;
      if tradeBlockedUntil.Some? && currentTime < tradeBlockedUntil.value {
        return;
      }
      if trade.Some? {
        match UpdateTrailingTp(cfg, trade.value, price) {
          case TypeError =>
            raised := true;
          case Trailed(t) =>
            trade := Some(t);
        }
        return;
      }
      CheckBreakouts(price, psyHi[i].value, psyLo[i].value, equity);
    }
  }
}
