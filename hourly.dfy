// The two data transforms of PsyLevelsStrategy.init (strategy.py): the
// five-minute OHLCV frame resampled to clock hours, and the hourly level
// columns carried back onto the five-minute index by reindex + forward fill.
module HourlyLevels {
  import opened Bars

  // ---------------------------------------------------------------------
  // Clock-hour arithmetic

  /** A stamp on the hour: what every label of a '1h' resample is. */
  predicate OnTheHour(t: int) {
    HourStart(t) == t
  }

  lemma HourStartFacts(t: int)
    ensures HourStart(t) <= t < HourStart(t) + MinutesPerHour
    ensures OnTheHour(HourStart(t))
  {
  }

  /** Two distinct stamps on the hour are at least an hour apart. */
  lemma OnTheHourGap(a: int, b: int)
    requires OnTheHour(a) && OnTheHour(b) && a < b
    ensures a + MinutesPerHour <= b
  {
    var qa, qb := a / 60, b / 60;
    assert a == 60 * qa && b == 60 * qb;
    assert qa < qb;
  }

  lemma HourStartMonotone(a: int, b: int)
    requires a <= b
    ensures HourStart(a) <= HourStart(b)
  {
    assert a / 60 <= b / 60;
  }

  // ---------------------------------------------------------------------
  // resample('1h').agg(first, max, min, last, sum)

  /** The hourly row opened by a single five-minute row. */
  function OpenHour(x: Bar): Bar {
    Bar(HourStart(x.t), x.open, x.high, x.low, x.close, x.volume)
  }

  /** The hourly row o extended by one more row x of the same hour. */
  function Absorb(o: Bar, x: Bar): Bar {
    Bar(o.t, o.open, if o.high < x.high then x.high else o.high, if x.low < o.low then x.low else o.low,
        x.close, o.volume + x.volume)
  }

  /** resample_to_hourly over a time-ordered frame: one row per clock hour that holds
      at least one input row, labelled with the hour's start. Hours without rows
      produce no row here (see README). */
  function ResampleToHourly(bars: seq<Bar>): (r: seq<Bar>)
    ensures |r| <= |bars|
  {
    if bars == [] then []
    else
      var x := bars[|bars| - 1];
      var out := ResampleToHourly(bars[..|bars| - 1]);
      if out != [] && out[|out| - 1].t == HourStart(x.t) then
        AbsorbLast(out, x)
      else
        out + [OpenHour(x)]
  }

  /** o summarises the rows w: there is at least one, Open is the first row's Open,
      Close the last row's Close, High the greatest High, Low the least Low and
      Volume the sum of the Volumes. */
  predicate IsAggregateOf(w: seq<Bar>, o: Bar) {
    && w != []
    && o.open == w[0].open
    && o.close == w[|w| - 1].close
    && HighestHigh(w) == Some(o.high)
    && LowestLow(w) == Some(o.low)
    && o.volume == TotalVolume(w)
  }

  /** The rows of bars that fall in the clock hour starting at h. */
  function HourRows(bars: seq<Bar>, h: int): seq<Bar> {
    Window(bars, h, h + MinutesPerHour)
  }

  /** The layout of a resampled frame: sorted labels on the hour, one for the hour of
      every input row, the last one being the hour of the last input row. */
  predicate HourlyShape(bars: seq<Bar>, out: seq<Bar>) {
    && (out == [] <==> bars == [])
    && (bars != [] ==> out[|out| - 1].t == HourStart(bars[|bars| - 1].t))
    && Increasing(out)
    && (forall j :: 0 <= j < |out| ==> OnTheHour(out[j].t))
    && (forall k :: 0 <= k < |bars| ==> exists j :: 0 <= j < |out| && out[j].t == HourStart(bars[k].t))
  }

  /** Every row of the resampled frame aggregates exactly the input rows of its hour. */
  predicate AggregatesExact(bars: seq<Bar>, out: seq<Bar>) {
    forall j :: 0 <= j < |out| ==> IsAggregateOf(HourRows(bars, out[j].t), out[j])
  }

  /** Rows after o's hour leave its aggregate as it is. */
  lemma AggregateUnaffected(p: seq<Bar>, x: Bar, o: Bar)
    requires IsAggregateOf(HourRows(p, o.t), o) && o.t + MinutesPerHour <= x.t
    ensures IsAggregateOf(HourRows(p + [x], o.t), o)
  {
    WindowSnoc(p, x, o.t, o.t + MinutesPerHour);
    assert HourRows(p + [x], o.t) == HourRows(p, o.t);
  }

  /** Absorbing a later row of the same hour keeps the aggregate exact. */
  lemma AggregateAbsorb(p: seq<Bar>, x: Bar, o: Bar)
    requires IsAggregateOf(HourRows(p, o.t), o) && o.t <= x.t < o.t + MinutesPerHour
    ensures IsAggregateOf(HourRows(p + [x], o.t), Absorb(o, x))
  {
    var w := HourRows(p, o.t);
    WindowSnoc(p, x, o.t, o.t + MinutesPerHour);
    assert HourRows(p + [x], o.t) == w + [x];
    HighestLowestSnoc(w, x);
    assert (w + [x])[..|w|] == w;
  }

  /** The first row of a new hour, after every earlier row, opens an exact aggregate. */
  lemma AggregateOpen(p: seq<Bar>, x: Bar)
    requires forall k :: 0 <= k < |p| ==> p[k].t < HourStart(x.t)
    ensures IsAggregateOf(HourRows(p + [x], HourStart(x.t)), OpenHour(x))
  {
    HourStartFacts(x.t);
    var h := HourStart(x.t);
    WindowNone(p, h, h + MinutesPerHour);
    WindowSnoc(p, x, h, h + MinutesPerHour);
    assert HourRows(p + [x], h) == [x];
    assert [x][..0] == [];
  }

  /** The output after a row of the same hour as the last output row: that row absorbs it. */
  function AbsorbLast(prev: seq<Bar>, x: Bar): seq<Bar>
    requires prev != []
  {
    prev[..|prev| - 1] + [Absorb(prev[|prev| - 1], x)]
  }

  lemma SameHourShape(p: seq<Bar>, x: Bar, prev: seq<Bar>)
    requires Increasing(p + [x]) && HourlyShape(p, prev)
    requires prev != [] && prev[|prev| - 1].t == HourStart(x.t)
    ensures HourlyShape(p + [x], AbsorbLast(prev, x))
  {
    var bars, out := p + [x], AbsorbLast(prev, x);
    var n := |prev| - 1;
    assert forall j :: 0 <= j < |out| ==> out[j].t == prev[j].t;
    forall k | 0 <= k < |bars| ensures exists j :: 0 <= j < |out| && out[j].t == HourStart(bars[k].t) {
      if k < |p| {
        assert bars[k] == p[k];
        var j :| 0 <= j < |prev| && prev[j].t == HourStart(p[k].t);
        assert out[j].t == prev[j].t;
      } else {
        assert out[n].t == HourStart(x.t);
      }
    }
  }

  lemma SameHourAggregates(p: seq<Bar>, x: Bar, prev: seq<Bar>)
    requires Increasing(p + [x]) && HourlyShape(p, prev) && AggregatesExact(p, prev)
    requires prev != [] && prev[|prev| - 1].t == HourStart(x.t)
    ensures AggregatesExact(p + [x], AbsorbLast(prev, x))
  {
    var out := AbsorbLast(prev, x);
    var n := |prev| - 1;
    var o := prev[n];
    HourStartFacts(x.t);
    forall j | 0 <= j < |out| ensures IsAggregateOf(HourRows(p + [x], out[j].t), out[j]) {
      if j < n {
        assert out[j] == prev[j];
        OnTheHourGap(prev[j].t, o.t);
        AggregateUnaffected(p, x, prev[j]);
      } else {
        AggregateAbsorb(p, x, o);
      }
    }
  }

  lemma NewHourShape(p: seq<Bar>, x: Bar, prev: seq<Bar>)
    requires Increasing(p + [x]) && HourlyShape(p, prev)
    requires !(prev != [] && prev[|prev| - 1].t == HourStart(x.t))
    ensures HourlyShape(p + [x], prev + [OpenHour(x)])
    ensures forall k :: 0 <= k < |p| ==> p[k].t < HourStart(x.t)
    ensures forall j :: 0 <= j < |prev| ==> prev[j].t + MinutesPerHour <= HourStart(x.t)
  {
    var bars, out := p + [x], prev + [OpenHour(x)];
    HourStartFacts(x.t);
    if prev != [] {
      var last := prev[|prev| - 1];
      assert p[|p| - 1] == bars[|p| - 1] && x == bars[|p|];
      HourStartMonotone(p[|p| - 1].t, x.t);
      HourStartFacts(p[|p| - 1].t);
      OnTheHourGap(last.t, HourStart(x.t));
      forall k | 0 <= k < |p| ensures p[k].t < HourStart(x.t) {
        assert p[k] == bars[k];
      }
      forall j | 0 <= j < |prev| ensures prev[j].t + MinutesPerHour <= HourStart(x.t) {
        if j < |prev| - 1 {
          OnTheHourGap(prev[j].t, last.t);
        }
      }
    }
    forall i, j | 0 <= i < j < |out| ensures out[i].t < out[j].t {
      if j < |prev| {
        assert out[i] == prev[i] && out[j] == prev[j];
      } else {
        assert out[i] == prev[i] && out[j].t == HourStart(x.t);
      }
    }
    forall k | 0 <= k < |bars| ensures exists j :: 0 <= j < |out| && out[j].t == HourStart(bars[k].t) {
      if k < |p| {
        assert bars[k] == p[k];
        var j :| 0 <= j < |prev| && prev[j].t == HourStart(p[k].t);
        assert out[j] == prev[j];
      } else {
        assert out[|prev|].t == HourStart(x.t);
      }
    }
  }

  lemma NewHourAggregates(p: seq<Bar>, x: Bar, prev: seq<Bar>)
    requires AggregatesExact(p, prev)
    requires forall k :: 0 <= k < |p| ==> p[k].t < HourStart(x.t)
    requires forall j :: 0 <= j < |prev| ==> prev[j].t + MinutesPerHour <= HourStart(x.t)
    ensures AggregatesExact(p + [x], prev + [OpenHour(x)])
  {
    var out := prev + [OpenHour(x)];
    HourStartFacts(x.t);
    forall j | 0 <= j < |out| ensures IsAggregateOf(HourRows(p + [x], out[j].t), out[j]) {
      if j < |prev| {
        assert out[j] == prev[j];
        AggregateUnaffected(p, x, prev[j]);
      } else {
        AggregateOpen(p, x);
      }
    }
  }

  /** One step of the fold: the last row joins the last hour or opens a new one. */
  lemma ResampleUnfold(bars: seq<Bar>)
    requires bars != []
    ensures var prev, x := ResampleToHourly(bars[..|bars| - 1]), bars[|bars| - 1];
      ResampleToHourly(bars)
      == if prev != [] && prev[|prev| - 1].t == HourStart(x.t) then AbsorbLast(prev, x) else prev + [OpenHour(x)]
  {
  }

  /** resample_to_hourly over a sorted, duplicate-free index: the result has
      sorted labels on the hour and one for the hour of every input row. */
  lemma {:induction false} ResampleToHourlyShape(bars: seq<Bar>)
    requires Increasing(bars)
    ensures HourlyShape(bars, ResampleToHourly(bars))
  {
    if bars != [] {
      var p, x := bars[..|bars| - 1], bars[|bars| - 1];
      SplitLast(bars);
      IncreasingPrefix(p, x);
      ResampleToHourlyShape(p);
      var prev := ResampleToHourly(p);
      ResampleUnfold(bars);
      if prev != [] && prev[|prev| - 1].t == HourStart(x.t) {
        SameHourShape(p, x, prev);
      } else {
        NewHourShape(p, x, prev);
      }
    }
  }

  /** Each row of the resampled frame is the exact first/max/min/last/sum
      aggregate of the input rows of its hour (which are never none). */
  lemma {:induction false} ResampleToHourlyAggregates(bars: seq<Bar>)
    requires Increasing(bars)
    ensures AggregatesExact(bars, ResampleToHourly(bars))
  {
    if bars != [] {
      var p := bars[..|bars| - 1];
      IncreasingPrefix(p, bars[|bars| - 1]);
      ResampleToHourlyAggregates(p);
      ResampleToHourlyShape(p);
      AggregatesStep(bars, p);
    }
  }

  /** Resampling one more row keeps every output row an exact aggregate. */
  lemma AggregatesStep(bars: seq<Bar>, p: seq<Bar>)
    requires Increasing(bars) && bars != [] && p == bars[..|bars| - 1]
    requires HourlyShape(p, ResampleToHourly(p)) && AggregatesExact(p, ResampleToHourly(p))
    ensures AggregatesExact(bars, ResampleToHourly(bars))
  {
    var x := bars[|bars| - 1];
    SplitLast(bars);
    var prev := ResampleToHourly(p);
    ResampleUnfold(bars);
    if prev != [] && prev[|prev| - 1].t == HourStart(x.t) {
      SameHourAggregates(p, x, prev);
    } else {
      NewHourShape(p, x, prev);
      NewHourAggregates(p, x, prev);
    }
  }

  /** The resampled frame keeps a sorted, duplicate-free index. */
  lemma ResampleToHourlyIncreasing(bars: seq<Bar>)
    requires Increasing(bars)
    ensures Increasing(ResampleToHourly(bars))
  {
    ResampleToHourlyShape(bars);
  }

  // ---------------------------------------------------------------------
  // reindex(data.index).ffill()

  /** The value the hourly column holds at stamp t, if the hourly frame has a row
      stamped exactly t: what reindexing onto another index reads. */
  function ValueAt(hourly: seq<Bar>, column: seq<Option<real>>, t: int): (r: Option<real>)
    requires |column| == |hourly|
    ensures r.Some? ==> exists j :: 0 <= j < |hourly| && hourly[j].t == t && column[j] == r
    ensures (forall j :: 0 <= j < |hourly| ==> hourly[j].t != t) ==> r.None?
  {
    if hourly == [] then None
    else if hourly[|hourly| - 1].t == t then column[|column| - 1]
    else ValueAt(hourly[..|hourly| - 1], column[..|column| - 1], t)
  }

  /** ffill: every missing entry takes the nearest present entry before it. */
  function ForwardFill(s: seq<Option<real>>): (r: seq<Option<real>>)
    ensures |r| == |s|
  {
    if s == [] then []
    else
      var p := ForwardFill(s[..|s| - 1]);
      p + [if s[|s| - 1].Some? || p == [] then s[|s| - 1] else p[|p| - 1]]
  }

  /** The index of the latest present entry at or before k. */
  function LastPresent(s: seq<Option<real>>, k: nat): (r: Option<nat>)
    requires k < |s|
    ensures r.Some? ==> r.value <= k && s[r.value].Some? && forall i :: r.value < i <= k ==> s[i].None?
    ensures r.None? ==> forall i :: 0 <= i <= k ==> s[i].None?
  {
    if s[k].Some? then Some(k)
    else if k == 0 then None
    else LastPresent(s, k - 1)
  }

  lemma LastPresentPrefix(s: seq<Option<real>>, k: nat, n: nat)
    requires k < n <= |s|
    ensures LastPresent(s[..n], k) == LastPresent(s, k)
  {
    if s[k].None? && k > 0 {
      LastPresentPrefix(s, k - 1, n);
    }
  }

  /** Forward fill agrees with the reference: entry k of the result is the latest
      present entry at or before k, and missing when there is none. */
  lemma {:induction false} ForwardFillLatest(s: seq<Option<real>>)
    ensures forall k :: 0 <= k < |s| ==>
      ForwardFill(s)[k] == (if LastPresent(s, k).Some? then s[LastPresent(s, k).value] else None)
  {
    if s != [] {
      var n := |s| - 1;
      var p := s[..n];
      ForwardFillLatest(p);
      var r := ForwardFill(s);
      forall k | 0 <= k < |s|
        ensures r[k] == (if LastPresent(s, k).Some? then s[LastPresent(s, k).value] else None)
      {
        if k < n {
          LastPresentPrefix(s, k, n);
          assert r[k] == ForwardFill(p)[k];
          if LastPresent(s, k).Some? {
            assert p[LastPresent(s, k).value] == s[LastPresent(s, k).value];
          }
        } else if s[n].None? && n > 0 {
          LastPresentPrefix(s, n - 1, n);
          if LastPresent(s, n - 1).Some? {
            assert p[LastPresent(s, n - 1).value] == s[LastPresent(s, n - 1).value];
          }
        }
      }
    }
  }

  /** The hourly column reindexed onto the five-minute index. */
  function Reindexed(hourly: seq<Bar>, column: seq<Option<real>>, data: seq<Bar>): (r: seq<Option<real>>)
    requires |column| == |hourly|
    ensures |r| == |data|
  {
    seq(|data|, k requires 0 <= k < |data| => ValueAt(hourly, column, data[k].t))
  }

  /** With a duplicate-free hourly index, reindexing reads the row stamped exactly t. */
  lemma ValueAtRow(hourly: seq<Bar>, column: seq<Option<real>>, j: nat)
    requires |column| == |hourly| && Increasing(hourly) && j < |hourly|
    ensures ValueAt(hourly, column, hourly[j].t) == column[j]
  {
    var n := |hourly| - 1;
    if j < n {
      assert hourly[n].t != hourly[j].t;
      ValueAtRow(hourly[..n], column[..n], j);
    }
  }

  /** psy_hi_series / psy_lo_series: the hourly column reindexed onto the
      five-minute index, then forward filled. */
  function AlignLevels(hourly: seq<Bar>, column: seq<Option<real>>, data: seq<Bar>): (r: seq<Option<real>>)
    requires |column| == |hourly|
    ensures |r| == |data|
  {
    ForwardFill(Reindexed(hourly, column, data))
  }

  /** The level a five-minute bar sees: when some bar at or before it is stamped on
      an hour whose hourly level is present, the level of the latest such bar;
      otherwise none. A missing hourly level inherits the previous one. */
  lemma AlignLevelsLatest(hourly: seq<Bar>, column: seq<Option<real>>, data: seq<Bar>, k: nat)
    requires |column| == |hourly| && k < |data|
    ensures var r := AlignLevels(hourly, column, data);
      && (r[k].None? <==> forall i :: 0 <= i <= k ==> ValueAt(hourly, column, data[i].t).None?)
      && (r[k].Some? ==>
            exists i :: (0 <= i <= k && r[k] == ValueAt(hourly, column, data[i].t)
              && forall m :: i < m <= k ==> ValueAt(hourly, column, data[m].t).None?))
  {
    var s := Reindexed(hourly, column, data);
    var r := AlignLevels(hourly, column, data);
    ForwardFillLatest(s);
    var lp := LastPresent(s, k);
    if lp.Some? {
      var i := lp.value;
      assert r[k] == s[i] == ValueAt(hourly, column, data[i].t);
      forall m | i < m <= k ensures ValueAt(hourly, column, data[m].t).None? {
        assert s[m].None?;
      }
    } else {
      forall i | 0 <= i <= k ensures ValueAt(hourly, column, data[i].t).None? {
        assert s[i].None?;
      }
    }
  }
}
