// The weekly "psy level" band calculator (indicator/psy_levels.py,
// PsychologicalLevels.calc_psy_levels) and its price-cross alert generator
// (PsychologicalLevels.generate_alerts).
//
// calc_psy_levels finds every session start in the index, takes the highest
// High and lowest Low of the rows from one hour before the start to six hours
// after it, collecting them hour by hour, and writes that pair into the
// psy_hi / psy_lo columns of every row from that start up to the next start.
module PsyLevels {
  import opened Bars

  /** The psy_type argument: 'crypto' anchors sessions at Saturday 22:00 UTC,
      every other value at Monday 00:00 UTC. */
  datatype PsyType = Crypto | Forex

  /** The (psy_hi, psy_lo) pair of one session. */
  datatype Band = Band(hi: real, lo: real)

  const LookaheadHours: nat := 6

  predicate IsSessionStart(t: int, kind: PsyType) {
    match kind
    case Crypto => IsSaturday22(t)
    case Forex => Weekday(t) == 0 && Hour(t) == 0 && Minute(t) == 0
  }

  predicate StrictlySorted(s: seq<int>) {
    forall i, j :: 0 <= i < j < |s| ==> s[i] < s[j]
  }

  /** The session starts: the index stamps that match the convention, in ascending order. */
  function SessionStarts(bars: seq<Bar>, kind: PsyType): (starts: seq<int>)
    ensures forall x :: x in starts ==> IsSessionStart(x, kind)
    ensures forall x :: x in starts ==> exists k :: 0 <= k < |bars| && bars[k].t == x
    ensures forall k :: 0 <= k < |bars| && IsSessionStart(bars[k].t, kind) ==> bars[k].t in starts
    ensures Increasing(bars) ==> StrictlySorted(starts)
  {
    if bars == [] then []
    else
      var p, t := bars[..|bars| - 1], bars[|bars| - 1].t;
      assert forall k :: 0 <= k < |p| ==> p[k] == bars[k];
      var pre := SessionStarts(p, kind);
      var starts := pre + (if IsSessionStart(t, kind) then [t] else []);
      assert Increasing(bars) ==> StrictlySorted(starts) by {
        if Increasing(bars) {
          assert Increasing(p);
          forall i | 0 <= i < |pre| ensures pre[i] < t {
            assert pre[i] in pre;
            var k :| 0 <= k < |p| && p[k].t == pre[i];
          }
        }
      }
      starts
  }

  // ---------------------------------------------------------------------
  // Periods: session i owns [starts[i], starts[i+1]); the last session owns
  // [starts[last], lastT), where lastT is the stamp of the final row.

  function PeriodEnd(starts: seq<int>, lastT: int, i: nat): int
    requires i < |starts|
  {
    if i + 1 < |starts| then starts[i + 1] else lastT
  }

  predicate InPeriod(starts: seq<int>, lastT: int, i: nat, t: int)
    requires i < |starts|
  {
    starts[i] <= t < PeriodEnd(starts, lastT, i)
  }

  /** The first period at or after i that contains t, if any. */
  function PeriodFrom(starts: seq<int>, lastT: int, t: int, i: nat): (r: Option<nat>)
    requires i <= |starts|
    decreases |starts| - i
    ensures r.Some? ==> i <= r.value < |starts| && InPeriod(starts, lastT, r.value, t)
    ensures r.None? ==> forall j :: i <= j < |starts| ==> !InPeriod(starts, lastT, j, t)
  {
    if i == |starts| then None
    else if InPeriod(starts, lastT, i, t) then Some(i)
    else PeriodFrom(starts, lastT, t, i + 1)
  }

  /** With ascending starts the periods are disjoint, so a stamp inside period i is found as period i. */
  lemma PeriodOfStamp(starts: seq<int>, lastT: int, t: int, i: nat)
    requires StrictlySorted(starts) && i < |starts| && InPeriod(starts, lastT, i, t)
    ensures PeriodFrom(starts, lastT, t, 0) == Some(i)
  {
  }

  // ---------------------------------------------------------------------
  // The band of one session

  /** The reference definition: the highest High and lowest Low over all rows in
      [start - 1h, start + 6h), missing when that window holds no row. */
  function SessionBand(bars: seq<Bar>, start: int): Option<Band> {
    var w := Window(bars, start - MinutesPerHour, start + LookaheadHours * MinutesPerHour);
    if w == [] then None else Some(Band(HighestHigh(w).value, LowestLow(w).value))
  }

  /** `max(highs)` over the per-hour maxima collected so far (None while the list is empty). */
  function MaxOf(xs: seq<real>): Option<real> {
    if xs == [] then None else Larger(MaxOf(xs[..|xs| - 1]), Some(xs[|xs| - 1]))
  }

  /** `min(lows)` over the per-hour minima collected so far. */
  function MinOf(xs: seq<real>): Option<real> {
    if xs == [] then None else Smaller(MinOf(xs[..|xs| - 1]), Some(xs[|xs| - 1]))
  }

  lemma MaxMinOfSnoc(xs: seq<real>, x: real)
    ensures MaxOf(xs + [x]) == Larger(MaxOf(xs), Some(x))
    ensures MinOf(xs + [x]) == Smaller(MinOf(xs), Some(x))
  {
    assert (xs + [x])[..|xs|] == xs;
  }

  /** Steps 2a and 2b of calc_psy_levels: the hour before the start, then the six
      hours from it, each contributing its High maximum and Low minimum when it
      holds rows and nothing when it is empty. The result is the band over the
      whole seven-hour window. */
  method CollectSessionBand(bars: seq<Bar>, start: int) returns (band: Option<Band>)
    ensures band == SessionBand(bars, start)
  {
    var highs: seq<real> := [];
    var lows: seq<real> := [];
    var initStart := start - MinutesPerHour;
    var init := Window(bars, initStart, start);
    if init != [] {
      highs := highs + [HighestHigh(init).value];
      lows := lows + [LowestLow(init).value];
      MaxMinOfSnoc([], HighestHigh(init).value);
      MaxMinOfSnoc([], LowestLow(init).value);
    }
    var h := 0;
    var hourStart := start;
    while h < LookaheadHours
      invariant 0 <= h <= LookaheadHours && hourStart == start + h * MinutesPerHour
      invariant MaxOf(highs) == HighestHigh(Window(bars, initStart, hourStart))
      invariant MinOf(lows) == LowestLow(Window(bars, initStart, hourStart))
    {
      var hourEnd := hourStart + MinutesPerHour;
      var hour := Window(bars, hourStart, hourEnd);
      HighestHighSplit(bars, initStart, hourStart, hourEnd);
      LowestLowSplit(bars, initStart, hourStart, hourEnd);
      if hour != [] {
        MaxMinOfSnoc(highs, HighestHigh(hour).value);
        MaxMinOfSnoc(lows, LowestLow(hour).value);
        highs := highs + [HighestHigh(hour).value];
        lows := lows + [LowestLow(hour).value];
      }
      h, hourStart := h + 1, hourEnd;
    }
    if highs != [] && lows != [] {
      band := Some(Band(MaxOf(highs).value, MinOf(lows).value));
    } else {
      band := None;
    }
  }

  /** `df.loc[week_mask, 'psy_hi'] = hi` and the same for psy_lo: every row stamped
      in [from, to) takes the band, every other row keeps its value. */
  method AssignPeriod(psyHi: array<Option<real>>, psyLo: array<Option<real>>, bars: seq<Bar>,
                      from: int, to: int, band: Band)
    requires psyHi.Length == |bars| && psyLo.Length == |bars| && psyHi != psyLo
    modifies psyHi, psyLo
    ensures forall k :: 0 <= k < |bars| ==>
      psyHi[k] == (if from <= bars[k].t < to then Some(band.hi) else old(psyHi[k]))
    ensures forall k :: 0 <= k < |bars| ==>
      psyLo[k] == (if from <= bars[k].t < to then Some(band.lo) else old(psyLo[k]))
  {
    for k := 0 to |bars|
      invariant forall j :: 0 <= j < k ==>
        psyHi[j] == (if from <= bars[j].t < to then Some(band.hi) else old(psyHi[j]))
      invariant forall j :: 0 <= j < k ==>
        psyLo[j] == (if from <= bars[j].t < to then Some(band.lo) else old(psyLo[j]))
      invariant forall j :: k <= j < |bars| ==> psyHi[j] == old(psyHi[j]) && psyLo[j] == old(psyLo[j])
    {
      if from <= bars[k].t < to {
        psyHi[k] := Some(band.hi);
        psyLo[k] := Some(band.lo);
      }
    }
  }

  // ---------------------------------------------------------------------
  // The level columns

  /** The band a row stamped t receives: that of the session whose period contains t,
      missing outside every period or when that session's window is empty. */
  function LevelAt(bars: seq<Bar>, kind: PsyType, t: int): Option<Band> {
    if bars == [] then None
    else
      var starts := SessionStarts(bars, kind);
      match PeriodFrom(starts, bars[|bars| - 1].t, t, 0)
      case None => None
      case Some(i) => SessionBand(bars, starts[i])
  }

  function HiOf(b: Option<Band>): Option<real> {
    if b.Some? then Some(b.value.hi) else None
  }

  function LoOf(b: Option<Band>): Option<real> {
    if b.Some? then Some(b.value.lo) else None
  }

  /** The columns after the sessions before i have been written. */
  ghost function AppliedBefore(bars: seq<Bar>, starts: seq<int>, lastT: int, i: nat, t: int): Option<Band> {
    match PeriodFrom(starts, lastT, t, 0)
    case Some(j) => if j < i then SessionBand(bars, starts[j]) else None
    case None => None
  }

  /** Writing session i's band moves the written prefix from sessions before i to
      sessions before i + 1: only stamps in period i change, and those were unset. */
  lemma AppliedStep(bars: seq<Bar>, starts: seq<int>, lastT: int, i: nat, t: int)
    requires StrictlySorted(starts) && i < |starts|
    ensures AppliedBefore(bars, starts, lastT, i + 1, t)
            == if InPeriod(starts, lastT, i, t) then SessionBand(bars, starts[i]) else AppliedBefore(bars, starts, lastT, i, t)
    ensures InPeriod(starts, lastT, i, t) ==> AppliedBefore(bars, starts, lastT, i, t) == None
  {
    if InPeriod(starts, lastT, i, t) {
      PeriodOfStamp(starts, lastT, t, i);
    }
  }

  /** calc_psy_levels: psy_hi and psy_lo start as NaN in every row; for each
      session start in turn, the collected band is written over that session's
      period. The price columns are an input value and are left as they are. */
  method CalcPsyLevels(bars: seq<Bar>, kind: PsyType) returns (psyHi: seq<Option<real>>, psyLo: seq<Option<real>>)
    requires Increasing(bars)
    ensures |psyHi| == |bars| && |psyLo| == |bars|
    ensures forall k :: 0 <= k < |bars| ==> psyHi[k] == HiOf(LevelAt(bars, kind, bars[k].t))
    ensures forall k :: 0 <= k < |bars| ==> psyLo[k] == LoOf(LevelAt(bars, kind, bars[k].t))
  {
    var hi := new Option<real>[|bars|](_ => None);
    var lo := new Option<real>[|bars|](_ => None);
    var starts := SessionStarts(bars, kind);
    if bars == [] {
      return hi[..], lo[..];
    }
    var lastT := bars[|bars| - 1].t;
    for i := 0 to |starts|
      invariant forall k :: 0 <= k < |bars| ==> hi[k] == HiOf(AppliedBefore(bars, starts, lastT, i, bars[k].t))
      invariant forall k :: 0 <= k < |bars| ==> lo[k] == LoOf(AppliedBefore(bars, starts, lastT, i, bars[k].t))
    {
      var endTime := if i < |starts| - 1 then starts[i + 1] else lastT;
      assert endTime == PeriodEnd(starts, lastT, i);
      var band := CollectSessionBand(bars, starts[i]);
      ghost var hi0, lo0 := hi[..], lo[..];
      if band.Some? {
        AssignPeriod(hi, lo, bars, starts[i], endTime, band.value);
      }
      forall k | 0 <= k < |bars|
        ensures hi[k] == HiOf(AppliedBefore(bars, starts, lastT, i + 1, bars[k].t))
        ensures lo[k] == LoOf(AppliedBefore(bars, starts, lastT, i + 1, bars[k].t))
      {
        AppliedStep(bars, starts, lastT, i, bars[k].t);
      }
    }
    psyHi, psyLo := hi[..], lo[..];
  }

  // ---------------------------------------------------------------------
  // What the columns hold

  /** Within one period the columns are a step function: every row of period i
      carries exactly session i's band. */
  lemma LevelIsStepFunction(bars: seq<Bar>, kind: PsyType, i: nat, t: int)
    requires Increasing(bars) && bars != []
    requires i < |SessionStarts(bars, kind)|
    requires InPeriod(SessionStarts(bars, kind), bars[|bars| - 1].t, i, t)
    ensures LevelAt(bars, kind, t) == SessionBand(bars, SessionStarts(bars, kind)[i])
  {
    PeriodOfStamp(SessionStarts(bars, kind), bars[|bars| - 1].t, t, i);
  }

  /** The last session's period stops strictly before the final row, so the
      final row never receives a band. */
  lemma LastRowUnassigned(bars: seq<Bar>, kind: PsyType)
    requires Increasing(bars) && bars != []
    ensures LevelAt(bars, kind, bars[|bars| - 1].t) == None
  {
    var starts, lastT := SessionStarts(bars, kind), bars[|bars| - 1].t;
    forall j | 0 <= j < |starts|
      ensures !InPeriod(starts, lastT, j, lastT)
    {
      if j + 1 < |starts| {
        assert starts[j + 1] in starts;
        var k :| 0 <= k < |bars| && bars[k].t == starts[j + 1];
        assert k == |bars| - 1 || bars[k].t < lastT;
      }
    }
  }

  /** Rows before the first session start, and every row when the index holds
      no session start, keep NaN in both columns. */
  lemma UnassignedBeforeFirstSession(bars: seq<Bar>, kind: PsyType, t: int)
    requires Increasing(bars)
    requires forall x :: x in SessionStarts(bars, kind) ==> t < x
    ensures LevelAt(bars, kind, t) == None
  {
    if bars != [] {
      var starts := SessionStarts(bars, kind);
      forall j | 0 <= j < |starts|
        ensures t < starts[j]
      {
        assert starts[j] in starts;
      }
    }
  }

  /** A session's band is the highest High and the lowest Low over exactly the rows
      in [start - 1h, start + 6h), and is missing precisely when no row falls there. */
  lemma SessionBandExtremes(bars: seq<Bar>, start: int)
    ensures var from, to := start - MinutesPerHour, start + LookaheadHours * MinutesPerHour;
      && (SessionBand(bars, start).None? <==> forall k :: 0 <= k < |bars| ==> !(from <= bars[k].t < to))
      && (SessionBand(bars, start).Some? ==>
            var b := SessionBand(bars, start).value;
            && (exists k :: 0 <= k < |bars| && from <= bars[k].t < to && bars[k].high == b.hi)
            && (exists k :: 0 <= k < |bars| && from <= bars[k].t < to && bars[k].low == b.lo)
            && (forall k :: 0 <= k < |bars| && from <= bars[k].t < to ==> b.lo <= bars[k].low && bars[k].high <= b.hi))
  {
    var from, to := start - MinutesPerHour, start + LookaheadHours * MinutesPerHour;
    var w := Window(bars, from, to);
    assert SessionBand(bars, start) == if w == [] then None else Some(Band(HighestHigh(w).value, LowestLow(w).value));
    if w != [] {
      WindowExtremes(bars, from, to);
    } else {
      WindowEmpty(bars, from, to);
    }
  }

  /** An empty window means no row is stamped inside it. */
  lemma WindowEmpty(bars: seq<Bar>, from: int, to: int)
    requires Window(bars, from, to) == []
    ensures forall k :: 0 <= k < |bars| ==> !(from <= bars[k].t < to)
  {
    WindowSelects(bars, from, to);
  }

  /** The extremes of a non-empty window are attained by rows inside it and bound all of them. */
  lemma WindowExtremes(bars: seq<Bar>, from: int, to: int)
    requires Window(bars, from, to) != []
    ensures exists k :: 0 <= k < |bars| && from <= bars[k].t < to && bars[k].high == HighestHigh(Window(bars, from, to)).value
    ensures exists k :: 0 <= k < |bars| && from <= bars[k].t < to && bars[k].low == LowestLow(Window(bars, from, to)).value
    ensures forall k :: 0 <= k < |bars| && from <= bars[k].t < to ==>
      LowestLow(Window(bars, from, to)).value <= bars[k].low && bars[k].high <= HighestHigh(Window(bars, from, to)).value
  {
    var w := Window(bars, from, to);
    var hh, ll := HighestHigh(w).value, LowestLow(w).value;
    var ih :| 0 <= ih < |w| && w[ih].high == hh;
    var il :| 0 <= il < |w| && w[il].low == ll;
    WindowRowOrigin(bars, from, to, ih);
    WindowRowOrigin(bars, from, to, il);
    forall k | 0 <= k < |bars| && from <= bars[k].t < to
      ensures ll <= bars[k].low && bars[k].high <= hh
    {
      WindowRowHit(bars, from, to, k);
    }
  }

  /** Every row of a window comes from a row stamped inside it. */
  lemma WindowRowOrigin(bars: seq<Bar>, from: int, to: int, i: nat)
    requires i < |Window(bars, from, to)|
    ensures exists k :: 0 <= k < |bars| && from <= bars[k].t < to && bars[k] == Window(bars, from, to)[i]
  {
    WindowSelects(bars, from, to);
    assert Window(bars, from, to)[i] in Window(bars, from, to);
  }

  /** Every row stamped inside a window appears in it. */
  lemma WindowRowHit(bars: seq<Bar>, from: int, to: int, k: nat)
    requires k < |bars| && from <= bars[k].t < to
    ensures exists i :: 0 <= i < |Window(bars, from, to)| && Window(bars, from, to)[i] == bars[k]
  {
    WindowSelects(bars, from, to);
  }

  /** When every row has High >= Low, every band written has psy_hi >= psy_lo. */
  lemma SessionBandOrdered(bars: seq<Bar>, start: int)
    requires WellFormed(bars)
    ensures SessionBand(bars, start).Some? ==> SessionBand(bars, start).value.lo <= SessionBand(bars, start).value.hi
  {
    SessionBandExtremes(bars, start);
  }

  // ---------------------------------------------------------------------
  // generate_alerts

  /** One row of the frame generate_alerts reads: its stamp, close and level columns. */
  datatype Quote = Quote(t: int, close: real, psyHi: Option<real>, psyLo: Option<real>)

  datatype Line = PsyHi | PsyLo

  /** The four alert groups, in the order they are emitted. */
  datatype AlertKind = CrossedOver(line: Line) | CrossedUnder(line: Line)

  datatype Alert = Alert(t: int, kind: AlertKind, level: Option<real>)

  predicate QuotesIncreasing(rows: seq<Quote>) {
    forall i, j :: 0 <= i < j < |rows| ==> rows[i].t < rows[j].t
  }

  function LevelOf(q: Quote, line: Line): Option<real> {
    match line
    case PsyHi => q.psyHi
    case PsyLo => q.psyLo
  }

  /** `close > level`; a comparison with NaN is false. */
  predicate Above(q: Quote, line: Line) {
    LevelOf(q, line).Some? && q.close > LevelOf(q, line).value
  }

  /** The 0/1 series `(close > level).astype(int).diff()` is 1 (crossover) or -1 (crossunder)
      at row i; its first entry is NaN, so row 0 never crosses. */
  predicate CrossesAt(rows: seq<Quote>, i: int, kind: AlertKind)
    requires 0 <= i < |rows|
  {
    i >= 1 &&
    match kind
    case CrossedOver(line) => !Above(rows[i - 1], line) && Above(rows[i], line)
    case CrossedUnder(line) => Above(rows[i - 1], line) && !Above(rows[i], line)
  }

  function AlertAt(rows: seq<Quote>, i: int, kind: AlertKind): Alert
    requires 0 <= i < |rows|
  {
    Alert(rows[i].t, kind, LevelOf(rows[i], kind.line))
  }

  /** The alerts of one group raised by rows 0 .. n-1, in row order. */
  function CrossingsBefore(rows: seq<Quote>, kind: AlertKind, n: nat): (alerts: seq<Alert>)
    requires n <= |rows|
    ensures forall a :: a in alerts ==> exists i :: 0 <= i < n && CrossesAt(rows, i, kind) && a == AlertAt(rows, i, kind)
    ensures forall i :: 0 <= i < n && CrossesAt(rows, i, kind) ==> AlertAt(rows, i, kind) in alerts
  {
    if n == 0 then []
    else CrossingsBefore(rows, kind, n - 1) + (if CrossesAt(rows, n - 1, kind) then [AlertAt(rows, n - 1, kind)] else [])
  }

  /** One alert group: an alert for every row where the crossing happens, in row order. */
  function Crossings(rows: seq<Quote>, kind: AlertKind): seq<Alert> {
    CrossingsBefore(rows, kind, |rows|)
  }

  predicate InTimeOrder(alerts: seq<Alert>) {
    forall a, b :: 0 <= a < b < |alerts| ==> alerts[a].t < alerts[b].t
  }

  /** Over a strictly increasing index the alerts of a group come out in time order. */
  lemma {:induction false} CrossingsBeforeOrdered(rows: seq<Quote>, kind: AlertKind, n: nat)
    requires n <= |rows| && QuotesIncreasing(rows)
    ensures InTimeOrder(CrossingsBefore(rows, kind, n))
  {
    if n > 0 {
      CrossingsBeforeOrdered(rows, kind, n - 1);
      var pre := CrossingsBefore(rows, kind, n - 1);
      forall a | 0 <= a < |pre| ensures pre[a].t < rows[n - 1].t {
        assert pre[a] in pre;
        var i :| 0 <= i < n - 1 && CrossesAt(rows, i, kind) && pre[a] == AlertAt(rows, i, kind);
      }
      var alerts := CrossingsBefore(rows, kind, n);
      assert alerts == pre + (if CrossesAt(rows, n - 1, kind) then [AlertAt(rows, n - 1, kind)] else []);
      forall a, b | 0 <= a < b < |alerts| ensures alerts[a].t < alerts[b].t {
        if b < |pre| {
          assert alerts[a] == pre[a] && alerts[b] == pre[b];
          assert pre[a].t < pre[b].t;
        } else {
          assert alerts[a] == pre[a] && alerts[b] == AlertAt(rows, n - 1, kind);
          assert pre[a].t < rows[n - 1].t;
        }
      }
    }
  }

  function Rank(kind: AlertKind): nat {
    match kind
    case CrossedOver(PsyHi) => 0
    case CrossedOver(PsyLo) => 1
    case CrossedUnder(PsyHi) => 2
    case CrossedUnder(PsyLo) => 3
  }

  /** generate_alerts: crossovers of psy_hi, crossovers of psy_lo, crossunders of
      psy_hi, crossunders of psy_lo, each alert carrying the row's level value.
      An alert is emitted exactly for each row where its crossing happens. */
  function GenerateAlerts(rows: seq<Quote>): (alerts: seq<Alert>)
    ensures forall a :: a in alerts <==>
      exists i :: 0 <= i < |rows| && CrossesAt(rows, i, a.kind) && a == AlertAt(rows, i, a.kind)
  {
    Crossings(rows, CrossedOver(PsyHi)) + Crossings(rows, CrossedOver(PsyLo))
      + Crossings(rows, CrossedUnder(PsyHi)) + Crossings(rows, CrossedUnder(PsyLo))
  }

  /** Alerts come group by group in the order over-hi, over-lo, under-hi, under-lo,
      and in time order within a group. */
  predicate Grouped(alerts: seq<Alert>) {
    forall x, y :: 0 <= x < y < |alerts| ==>
      Rank(alerts[x].kind) < Rank(alerts[y].kind)
      || (Rank(alerts[x].kind) == Rank(alerts[y].kind) && alerts[x].t < alerts[y].t)
  }

  lemma GroupedAppend(xs: seq<Alert>, ys: seq<Alert>)
    requires Grouped(xs) && Grouped(ys)
    requires forall x, y :: x in xs && y in ys ==> Rank(x.kind) < Rank(y.kind)
    ensures Grouped(xs + ys)
  {
    var zs := xs + ys;
    forall x, y | 0 <= x < y < |zs|
      ensures Rank(zs[x].kind) < Rank(zs[y].kind)
              || (Rank(zs[x].kind) == Rank(zs[y].kind) && zs[x].t < zs[y].t)
    {
      if y < |xs| {
        assert zs[x] == xs[x] && zs[y] == xs[y];
      } else if x < |xs| {
        assert zs[x] == xs[x] && zs[y] == ys[y - |xs|];
        assert xs[x] in xs && ys[y - |xs|] in ys;
      } else {
        assert zs[x] == ys[x - |xs|] && zs[y] == ys[y - |xs|];
      }
    }
  }

  /** One group over an increasing index is grouped, and every alert in it has its kind. */
  lemma CrossingsGrouped(rows: seq<Quote>, kind: AlertKind)
    requires QuotesIncreasing(rows)
    ensures Grouped(Crossings(rows, kind))
    ensures forall a :: a in Crossings(rows, kind) ==> a.kind == kind
  {
    var alerts := Crossings(rows, kind);
    CrossingsBeforeOrdered(rows, kind, |rows|);
    forall a | a in alerts ensures a.kind == kind {
      var i :| 0 <= i < |rows| && CrossesAt(rows, i, kind) && a == AlertAt(rows, i, kind);
    }
    forall x, y | 0 <= x < y < |alerts|
      ensures Rank(alerts[x].kind) == Rank(alerts[y].kind) && alerts[x].t < alerts[y].t
    {
      assert alerts[x] in alerts && alerts[y] in alerts;
    }
  }

  /** Over a strictly increasing index the four groups are emitted in order, each
      in time order, and the first row never alerts. */
  lemma {:induction false} GenerateAlertsGrouped(rows: seq<Quote>)
    requires QuotesIncreasing(rows)
    ensures Grouped(GenerateAlerts(rows))
    ensures forall a :: a in GenerateAlerts(rows) ==> a.t != rows[0].t
  {
    var oh, ol := Crossings(rows, CrossedOver(PsyHi)), Crossings(rows, CrossedOver(PsyLo));
    var uh, ul := Crossings(rows, CrossedUnder(PsyHi)), Crossings(rows, CrossedUnder(PsyLo));
    CrossingsGrouped(rows, CrossedOver(PsyHi));
    CrossingsGrouped(rows, CrossedOver(PsyLo));
    CrossingsGrouped(rows, CrossedUnder(PsyHi));
    CrossingsGrouped(rows, CrossedUnder(PsyLo));
    GroupedAppend(oh, ol);
    GroupedAppend(oh + ol, uh);
    GroupedAppend(oh + ol + uh, ul);
    assert Grouped(oh + ol + uh + ul);
    assert GenerateAlerts(rows) == oh + ol + uh + ul;
    forall a | a in GenerateAlerts(rows) ensures a.t != rows[0].t {
      var i :| 0 <= i < |rows| && CrossesAt(rows, i, a.kind) && a == AlertAt(rows, i, a.kind);
    }
  }
}
