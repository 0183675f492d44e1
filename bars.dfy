// Market data shared by the band calculator and the strategy: OHLCV rows
// stamped in whole minutes since 1970-01-01 00:00 UTC, the UTC calendar
// fields the code reads off those stamps, and the time-window selections and
// extremes both components take over the rows.
module Bars {

  /** A value that may be missing: a NaN in a pandas level column is None. */
  datatype Option<+T> = None | Some(value: T)

  /** One row of an OHLCV data frame; t is its index, in minutes since the Unix epoch (UTC). */
  datatype Bar = Bar(t: int, open: real, high: real, low: real, close: real, volume: real)

  /** A sorted, duplicate-free time index. */
  predicate Increasing(bars: seq<Bar>) {
    forall i, j :: 0 <= i < j < |bars| ==> bars[i].t < bars[j].t
  }

  /** A non-empty sequence of rows is its prefix followed by its last row. */
  lemma SplitLast(rows: seq<Bar>)
    requires rows != []
    ensures rows == rows[..|rows| - 1] + [rows[|rows| - 1]]
  {
  }

  /** Dropping the last row keeps the index sorted. */
  lemma IncreasingPrefix(p: seq<Bar>, x: Bar)
    requires Increasing(p + [x])
    ensures Increasing(p)
  {
    assert forall i :: 0 <= i < |p| ==> (p + [x])[i] == p[i];
  }

  /** Every row's High is at least its Low. */
  predicate WellFormed(bars: seq<Bar>) {
    forall i :: 0 <= i < |bars| ==> bars[i].low <= bars[i].high
  }

  // ---------------------------------------------------------------------
  // UTC calendar fields of a minute stamp (floor division, so stamps before
  // 1970 are handled as Python's datetime handles them).

  const MinutesPerHour: int := 60
  const MinutesPerDay: int := 1440

  /** datetime.weekday(): Monday is 0 and Sunday is 6; 1970-01-01 was a Thursday. */
  function Weekday(t: int): int {
    (t / MinutesPerDay + 3) % 7
  }

  function Hour(t: int): int {
    t % MinutesPerDay / MinutesPerHour
  }

  function Minute(t: int): int {
    t % MinutesPerHour
  }

  /** The start of the clock hour containing t (the label pandas' '1h' resample gives it). */
  function HourStart(t: int): int {
    t / MinutesPerHour * MinutesPerHour
  }

  /** Saturday 22:00 UTC, the weekly anchor of the crypto convention. */
  predicate IsSaturday22(t: int) {
    Weekday(t) == 5 && Hour(t) == 22 && Minute(t) == 0
  }

  /** Saturday 22:00 falls exactly on the stamps 4200 minutes into each epoch-aligned week,
      so two weekly anchors are always a whole number of weeks apart. */
  lemma Saturday22IsWeekly(t: int)
    ensures IsSaturday22(t) <==> t % 10080 == 4200
  {
    var d, r := t / 1440, t % 1440;
    var w, q := d / 7, d % 7;
    DayOfWeekStamp(t, d, r, w, q);
    assert d == 7 * w + q;
    assert Weekday(t) == (q + 3) % 7 by { ShiftMod7(d, w, q); }
    ClockOfDay(t, d, r);
    WeekOffset(q, r);
  }

  /** The hour and minute of t are those of its minute of the day r. */
  lemma ClockOfDay(t: int, d: int, r: int)
    requires d == t / 1440 && r == t % 1440
    ensures Hour(t) == r / 60 && Minute(t) == r % 60
  {
    var h, m := r / 60, r % 60;
    assert r == 60 * h + m && 0 <= m < 60;
    assert t == 60 * (24 * d + h) + m;
  }

  /** t splits into whole weeks w, days q into the week and minutes r into the day. */
  lemma DayOfWeekStamp(t: int, d: int, r: int, w: int, q: int)
    requires d == t / 1440 && r == t % 1440 && w == d / 7 && q == d % 7
    ensures 0 <= q < 7 && 0 <= r < 1440 && 0 <= 1440 * q + r < 10080
    ensures t % 10080 == 1440 * q + r
  {
    assert t == 1440 * d + r;
    assert d == 7 * w + q;
    assert t == 10080 * w + (1440 * q + r);
  }

  lemma ShiftMod7(d: int, w: int, q: int)
    requires d == 7 * w + q && 0 <= q < 7
    ensures (d + 3) % 7 == (q + 3) % 7
  {
  }

  /** Day q of an epoch week at minute r of the day is Saturday 22:00 exactly 4200
      minutes into the week. */
  lemma WeekOffset(q: int, r: int)
    requires 0 <= q < 7 && 0 <= r < 1440
    ensures ((q + 3) % 7 == 5 && r / 60 == 22 && r % 60 == 0) <==> 1440 * q + r == 4200
  {
    assert (q + 3) % 7 == 5 <==> q == 2;
    assert (r / 60 == 22 && r % 60 == 0) <==> r == 1320;
  }

  // ---------------------------------------------------------------------
  // Time windows and their extremes

  /** The rows stamped in [from, to), in index order: what the boolean mask
      `(index >= from) & (index < to)` selects. */
  function Window(bars: seq<Bar>, from: int, to: int): (r: seq<Bar>)
    ensures |r| <= |bars|
  {
    if bars == [] then []
    else
      var last := bars[|bars| - 1];
      Window(bars[..|bars| - 1], from, to) + (if from <= last.t < to then [last] else [])
  }

  /** A window holds exactly the rows stamped inside it. */
  lemma {:induction false} WindowSelects(bars: seq<Bar>, from: int, to: int)
    ensures forall b :: b in Window(bars, from, to) ==> b in bars && from <= b.t < to
    ensures forall i :: 0 <= i < |bars| && from <= bars[i].t < to ==> bars[i] in Window(bars, from, to)
  {
    if bars != [] {
      var p := bars[..|bars| - 1];
      WindowSelects(p, from, to);
      assert forall i :: 0 <= i < |p| ==> p[i] == bars[i];
    }
  }

  /** The larger of two optional values; a missing value is ignored. */
  function Larger(a: Option<real>, b: Option<real>): Option<real> {
    if a.None? then b
    else if b.None? then a
    else if a.value < b.value then b
    else a
  }

  /** The smaller of two optional values; a missing value is ignored. */
  function Smaller(a: Option<real>, b: Option<real>): Option<real> {
    if a.None? then b
    else if b.None? then a
    else if b.value < a.value then b
    else a
  }

  /** `rows['High'].max()`: the greatest High, missing for no rows. */
  function HighestHigh(rows: seq<Bar>): (r: Option<real>)
    ensures r.None? <==> rows == []
    ensures r.Some? ==> exists i :: 0 <= i < |rows| && rows[i].high == r.value
    ensures r.Some? ==> forall i :: 0 <= i < |rows| ==> rows[i].high <= r.value
  {
    if rows == [] then None
    else Larger(HighestHigh(rows[..|rows| - 1]), Some(rows[|rows| - 1].high))
  }

  /** `rows['Low'].min()`: the least Low, missing for no rows. */
  function LowestLow(rows: seq<Bar>): (r: Option<real>)
    ensures r.None? <==> rows == []
    ensures r.Some? ==> exists i :: 0 <= i < |rows| && rows[i].low == r.value
    ensures r.Some? ==> forall i :: 0 <= i < |rows| ==> r.value <= rows[i].low
  {
    if rows == [] then None
    else Smaller(LowestLow(rows[..|rows| - 1]), Some(rows[|rows| - 1].low))
  }

  /** `rows['Volume'].sum()`. */
  function TotalVolume(rows: seq<Bar>): real {
    if rows == [] then 0.0 else TotalVolume(rows[..|rows| - 1]) + rows[|rows| - 1].volume
  }

  lemma WindowSnoc(bars: seq<Bar>, x: Bar, from: int, to: int)
    ensures Window(bars + [x], from, to) == Window(bars, from, to) + (if from <= x.t < to then [x] else [])
  {
    assert (bars + [x])[..|bars|] == bars;
  }

  lemma HighestLowestSnoc(rows: seq<Bar>, x: Bar)
    ensures HighestHigh(rows + [x]) == Larger(HighestHigh(rows), Some(x.high))
    ensures LowestLow(rows + [x]) == Smaller(LowestLow(rows), Some(x.low))
  {
    assert (rows + [x])[..|rows|] == rows;
  }

  lemma LargerRegroup(x: Option<real>, y: Option<real>, z: Option<real>)
    ensures Larger(Larger(x, y), z) == Larger(Larger(x, z), y) == Larger(x, Larger(y, z))
  {
  }

  lemma SmallerRegroup(x: Option<real>, y: Option<real>, z: Option<real>)
    ensures Smaller(Smaller(x, y), z) == Smaller(Smaller(x, z), y) == Smaller(x, Smaller(y, z))
  {
  }

  /** Cutting [a, c) at b: the highest High over the whole window is the larger
      of the two pieces' highest Highs, whatever the order of the rows. */
  lemma {:induction false} HighestHighSplit(bars: seq<Bar>, a: int, b: int, c: int)
    requires a <= b <= c
    ensures HighestHigh(Window(bars, a, c))
            == Larger(HighestHigh(Window(bars, a, b)), HighestHigh(Window(bars, b, c)))
  {
    if bars != [] {
      var p, x := bars[..|bars| - 1], bars[|bars| - 1];
      HighestHighSplit(p, a, b, c);
      var whole, left, right := Window(p, a, c), Window(p, a, b), Window(p, b, c);
      if a <= x.t < b {
        assert Window(bars, a, c) == whole + [x];
        assert Window(bars, a, b) == left + [x];
        assert Window(bars, b, c) == right;
        HighestLowestSnoc(whole, x);
        HighestLowestSnoc(left, x);
        LargerRegroup(HighestHigh(left), HighestHigh(right), Some(x.high));
      } else if b <= x.t < c {
        assert Window(bars, a, c) == whole + [x];
        assert Window(bars, a, b) == left;
        assert Window(bars, b, c) == right + [x];
        HighestLowestSnoc(whole, x);
        HighestLowestSnoc(right, x);
        LargerRegroup(HighestHigh(left), HighestHigh(right), Some(x.high));
      } else {
        assert Window(bars, a, c) == whole;
        assert Window(bars, a, b) == left;
        assert Window(bars, b, c) == right;
      }
    }
  }

  /** Cutting [a, c) at b: the lowest Low over the whole window is the smaller
      of the two pieces' lowest Lows. */
  lemma {:induction false} LowestLowSplit(bars: seq<Bar>, a: int, b: int, c: int)
    requires a <= b <= c
    ensures LowestLow(Window(bars, a, c))
            == Smaller(LowestLow(Window(bars, a, b)), LowestLow(Window(bars, b, c)))
  {
    if bars != [] {
      var p, x := bars[..|bars| - 1], bars[|bars| - 1];
      LowestLowSplit(p, a, b, c);
      var whole, left, right := Window(p, a, c), Window(p, a, b), Window(p, b, c);
      if a <= x.t < b {
        assert Window(bars, a, c) == whole + [x];
        assert Window(bars, a, b) == left + [x];
        assert Window(bars, b, c) == right;
        HighestLowestSnoc(whole, x);
        HighestLowestSnoc(left, x);
        SmallerRegroup(LowestLow(left), LowestLow(right), Some(x.low));
      } else if b <= x.t < c {
        assert Window(bars, a, c) == whole + [x];
        assert Window(bars, a, b) == left;
        assert Window(bars, b, c) == right + [x];
        HighestLowestSnoc(whole, x);
        HighestLowestSnoc(right, x);
        SmallerRegroup(LowestLow(left), LowestLow(right), Some(x.low));
      } else {
        assert Window(bars, a, c) == whole;
        assert Window(bars, a, b) == left;
        assert Window(bars, b, c) == right;
      }
    }
  }

  /** A window that covers no row selects none. */
  lemma WindowNone(rows: seq<Bar>, from: int, to: int)
    requires forall i :: 0 <= i < |rows| ==> !(from <= rows[i].t < to)
    ensures Window(rows, from, to) == []
  {
    WindowSelects(rows, from, to);
  }
}
