/** The results table and its hourly means (watchpost/store.py). */
module Series {
  import opened Wrappers
  import opened Vectors
  import opened MonitorStates
  import opened Fits
  import Forecasts

  datatype Sample = Sample(monitor: string, ts: real, verdict: Verdict, value: Option<real>)

  /** SQL's CAST(ts / 3600 AS INTEGER), which cuts towards zero. */
  function Hour(ts: real): int {
    if ts >= 0.0 then (ts / 3600.0).Floor else -((-ts / 3600.0).Floor)
  }

  predicate Eligible(s: Sample, monitor: string, since: real) {
    s.monitor == monitor && s.ts >= since && s.value.Some? && !s.verdict.Fail?
  }

  /** The rows of the WHERE clause, as time and value. */
  function Selected(table: seq<Sample>, monitor: string, since: real): seq<Point> {
    if table == [] then []
    else
      var rest := Selected(table[1..], monitor, since);
      if Eligible(table[0], monitor, since) then [Point(table[0].ts, table[0].value.value)] + rest else rest
  }

  ghost predicate Increasing(s: seq<int>) {
    forall i, j | 0 <= i < j < |s| :: s[i] < s[j]
  }

  function Insert(h: int, s: seq<int>): (r: seq<int>)
    requires Increasing(s)
    ensures Increasing(r)
    ensures forall k :: k in r <==> k == h || k in s
  {
    if s == [] then [h]
    else if h < s[0] then [h] + s
    else if h == s[0] then s
    else
      assert s == [s[0]] + s[1..];
      var rest := Insert(h, s[1..]);
      assert forall j | 0 <= j < |rest| :: rest[j] in rest;
      assert forall j | 0 <= j < |rest| :: s[0] < rest[j];
      [s[0]] + rest
  }

  /** GROUP BY h ORDER BY h: the hours that occur, each once, in order. */
  function Hours(rows: seq<Point>): (hs: seq<int>)
    ensures Increasing(hs)
    ensures forall h :: h in hs <==> exists p | p in rows :: Hour(p.ts) == h
  {
    if rows == [] then [] else Insert(Hour(rows[0].ts), Hours(rows[1..]))
  }

  /** The values of one group. */
  function Group(rows: seq<Point>, h: int): seq<real> {
    if rows == [] then []
    else (if Hour(rows[0].ts) == h then [rows[0].value] else []) + Group(rows[1..], h)
  }

  lemma {:induction false} GroupOccurs(rows: seq<Point>, h: int)
    ensures Group(rows, h) != [] <==> exists p | p in rows :: Hour(p.ts) == h
  {
    if rows != [] {
      GroupOccurs(rows[1..], h);
      assert rows == [rows[0]] + rows[1..];
    }
  }

  function Midpoint(h: int): real {
    h as real * 3600.0 + 1800.0
  }

  function HourlySeries(table: seq<Sample>, monitor: string, since: real): (series: seq<Point>)
  {
    var rows := Selected(table, monitor, since);
    var hs := Hours(rows);
    seq(|hs|, i requires 0 <= i < |hs| => GroupPoint(rows, hs, i))
  }

  function GroupPoint(rows: seq<Point>, hs: seq<int>, i: nat): Point
    requires hs == Hours(rows) && i < |hs|
  {
    GroupOccurs(rows, hs[i]);
    assert hs[i] in hs;
    Point(Midpoint(hs[i]), Mean(Group(rows, hs[i])))
  }

  // ----- What a point stands for -----

  /** ts lies in the hour with this midpoint: half an hour to either side of it, except
      that the two hours around the epoch are one, and that before it hours end late. */
  predicate Within(midpoint: real, ts: real) {
    if midpoint > 1800.0 then midpoint - 1800.0 <= ts < midpoint + 1800.0
    else if midpoint == 1800.0 then -3600.0 < ts < 3600.0
    else midpoint - 5400.0 < ts <= midpoint - 1800.0
  }

  /** ts is half past the h-th hour since the epoch. */
  predicate HalfPast(h: int, ts: real) {
    ts == h as real * 3600.0 + 1800.0
  }

  lemma HourIsWithin(ts: real, h: int)
    ensures Hour(ts) == h <==> Within(Midpoint(h), ts)
  {
    if ts >= 0.0 {
      FloorIs(ts / 3600.0, h);
      assert h >= 0 ==> (h as real <= ts / 3600.0 < h as real + 1.0
                         <==> h as real * 3600.0 <= ts < (h as real + 1.0) * 3600.0);
    } else {
      FloorIs(-ts / 3600.0, -h);
    }
  }

  lemma FloorIs(x: real, k: int)
    ensures x.Floor == k <==> k as real <= x < k as real + 1.0
  {
  }

  /** The values that the database holds for a monitor, not before `since`, in the hour with this midpoint. */
  function ValuesWithin(table: seq<Sample>, monitor: string, since: real, midpoint: real): seq<real> {
    if table == [] then []
    else
      var s, rest := table[0], ValuesWithin(table[1..], monitor, since, midpoint);
      if s.monitor == monitor && s.ts >= since && s.value.Some? && s.verdict != Fail && Within(midpoint, s.ts)
      then [s.value.value] + rest else rest
  }

  lemma GroupCons(p: Point, rows: seq<Point>, h: int)
    ensures Group([p] + rows, h) == (if Hour(p.ts) == h then [p.value] else []) + Group(rows, h)
  {
    assert ([p] + rows)[1..] == rows;
  }

  lemma {:induction false} GroupIsWithin(table: seq<Sample>, monitor: string, since: real, h: int)
    ensures Group(Selected(table, monitor, since), h) == ValuesWithin(table, monitor, since, Midpoint(h))
  {
    if table != [] {
      GroupIsWithin(table[1..], monitor, since, h);
      HourIsWithin(table[0].ts, h);
      if Eligible(table[0], monitor, since) {
        GroupCons(Point(table[0].ts, table[0].value.value), Selected(table[1..], monitor, since), h);
      }
    }
  }

  /** A point is the midpoint of an hour in which the database holds values, with their mean. */
  lemma PointMeans(table: seq<Sample>, monitor: string, since: real, q: Point)
    ensures q in HourlySeries(table, monitor, since)
      <==> (exists h: int :: HalfPast(h, q.ts))
           && ValuesWithin(table, monitor, since, q.ts) != []
           && q.value == Mean(ValuesWithin(table, monitor, since, q.ts))
  {
    var rows := Selected(table, monitor, since);
    PointsOf(table, monitor, since, q);
    forall h
      ensures Group(rows, h) == ValuesWithin(table, monitor, since, Midpoint(h))
      ensures h in Hours(rows) <==> Group(rows, h) != []
    {
      GroupIsWithin(table, monitor, since, h);
      GroupOccurs(rows, h);
    }
    if h: int :| HalfPast(h, q.ts) {
      assert q.ts == Midpoint(h);
    }
    forall h: int | q.ts == Midpoint(h)
      ensures HalfPast(h, q.ts)
    {
    }
  }

  // ----- Spacing -----

  lemma {:induction false} IncreasingApart(hs: seq<int>, i: nat, j: nat)
    requires Increasing(hs) && i <= j < |hs|
    ensures hs[j] - hs[i] >= j - i
    decreases j
  {
    if i < j {
      IncreasingApart(hs, i, j - 1);
    }
  }

  /** The points are in order of time, at least an hour apart. */
  lemma SeriesSpaced(table: seq<Sample>, monitor: string, since: real, i: nat, j: nat)
    requires i <= j < |HourlySeries(table, monitor, since)|
    ensures var series := HourlySeries(table, monitor, since);
      series[j].ts - series[i].ts >= 3600.0 * (j - i) as real
  {
    IncreasingApart(Hours(Selected(table, monitor, since)), i, j);
  }

  /** Two points are always enough for a line, and n points span at least n - 1 hours. */
  lemma SeriesCanBeFitted(table: seq<Sample>, monitor: string, since: real)
    requires |HourlySeries(table, monitor, since)| >= 2
    ensures LeastSquares(HourlySeries(table, monitor, since)).Some?
    ensures LeastSquares(HourlySeries(table, monitor, since)).value.spanHours
            >= (|HourlySeries(table, monitor, since)| - 1) as real
  {
    var n := |HourlySeries(table, monitor, since)|;
    SeriesSpaced(table, monitor, since, 0, 1);
    SeriesSpaced(table, monitor, since, 0, n - 1);
    SpanOfFit(HourlySeries(table, monitor, since), (n - 1) as real);
  }

  lemma SpanOfFit(points: seq<Point>, hours: real)
    requires |points| >= 2 && points[1].ts > points[0].ts
    requires points[|points| - 1].ts - points[0].ts >= 3600.0 * hours
    ensures LeastSquares(points).Some? && LeastSquares(points).value.spanHours >= hours
  {
    FitExists(points);
    assert points[0].ts != points[1].ts;
    FitMeasures(points);
  }

  /** With enough hourly points and a threshold to aim at, there is always a verdict. */
  lemma HistorySuffices(table: seq<Sample>, monitor: string, since: real,
                        th: Forecasts.Thresholds, cfg: Forecasts.Settings)
    requires th.warn.Some? || th.crit.Some?
    requires |HourlySeries(table, monitor, since)| >= 2
    requires |HourlySeries(table, monitor, since)| >= cfg.minPoints
    requires (|HourlySeries(table, monitor, since)| - 1) as real >= cfg.minSpanHours
    ensures !Forecasts.Insufficient(HourlySeries(table, monitor, since), th, cfg)
  {
    SeriesCanBeFitted(table, monitor, since);
    FitExists(HourlySeries(table, monitor, since));
    FitMeasures(HourlySeries(table, monitor, since));
  }

  // ----- Conservation -----

  /** What the hours of `hs` contribute: the mean of each times its number of rows. */
  function Total(rows: seq<Point>, hs: seq<int>): real {
    if hs == [] then 0.0 else Weight(Group(rows, hs[0])) + Total(rows, hs[1..])
  }

  function Worth(mean: real, count: nat): real {
    mean * count as real
  }

  function Weight(values: seq<real>): real {
    if values == [] then 0.0 else Worth(Mean(values), |values|)
  }

  lemma WeightIsSum(values: seq<real>)
    ensures Weight(values) == Sum(values)
  {
  }

  lemma {:induction false} TotalWithout(rows: seq<Point>, hs: seq<int>)
    requires rows != [] && Hour(rows[0].ts) !in hs
    ensures Total(rows, hs) == Total(rows[1..], hs)
  {
    if hs != [] {
      assert Group(rows, hs[0]) == Group(rows[1..], hs[0]);
      TotalWithout(rows, hs[1..]);
    }
  }

  lemma {:induction false} TotalWith(rows: seq<Point>, hs: seq<int>)
    requires rows != [] && Increasing(hs) && Hour(rows[0].ts) in hs
    ensures Total(rows, hs) == rows[0].value + Total(rows[1..], hs)
  {
    var h := Hour(rows[0].ts);
    WeightIsSum(Group(rows, hs[0]));
    WeightIsSum(Group(rows[1..], hs[0]));
    if hs[0] == h {
      assert Group(rows, h) == [rows[0].value] + Group(rows[1..], h);
      TotalWithout(rows, hs[1..]);
    } else {
      assert Group(rows, hs[0]) == Group(rows[1..], hs[0]);
      TotalWith(rows, hs[1..]);
    }
  }

  lemma {:induction false} TotalOfNothing(hs: seq<int>)
    ensures Total([], hs) == 0.0
  {
    if hs != [] {
      TotalOfNothing(hs[1..]);
    }
  }

  lemma {:induction false} TotalIsSum(rows: seq<Point>, hs: seq<int>)
    requires Increasing(hs) && forall p | p in rows :: Hour(p.ts) in hs
    ensures Total(rows, hs) == Sum(Values(rows))
  {
    if rows == [] {
      TotalOfNothing(hs);
    } else {
      TotalIsSum(rows[1..], hs);
      TotalWith(rows, hs);
      assert Values(rows)[1..] == Values(rows[1..]);
    }
  }

  /** How many rows fall in the hour with this midpoint. */
  function CountAt(rows: seq<Point>, midpoint: real): nat {
    if rows == [] then 0
    else (if Midpoint(Hour(rows[0].ts)) == midpoint then 1 else 0) + CountAt(rows[1..], midpoint)
  }

  lemma {:induction false} CountIsGroupSize(rows: seq<Point>, h: int)
    ensures CountAt(rows, Midpoint(h)) == |Group(rows, h)|
  {
    if rows != [] {
      CountIsGroupSize(rows[1..], h);
    }
  }

  /** The points' means, each as often as its hour has rows. */
  function WeighedSum(series: seq<Point>, rows: seq<Point>): real {
    if series == [] then 0.0
    else Worth(series[0].value, CountAt(rows, series[0].ts)) + WeighedSum(series[1..], rows)
  }

  lemma {:induction false} WeighedIsTotal(series: seq<Point>, rows: seq<Point>, hs: seq<int>)
    requires |series| == |hs|
    requires forall i | 0 <= i < |hs| ::
      Group(rows, hs[i]) != [] && series[i] == Point(Midpoint(hs[i]), Mean(Group(rows, hs[i])))
    ensures WeighedSum(series, rows) == Total(rows, hs)
  {
    if hs != [] {
      CountIsGroupSize(rows, hs[0]);
      WeighedIsTotal(series[1..], rows, hs[1..]);
    }
  }

  /** Nothing is lost or counted twice: the means, weighed by their rows, add up to all the values. */
  lemma SeriesConserves(table: seq<Sample>, monitor: string, since: real)
    ensures var rows := Selected(table, monitor, since);
      WeighedSum(HourlySeries(table, monitor, since), rows) == Sum(Values(rows))
  {
    var rows := Selected(table, monitor, since);
    var hs := Hours(rows);
    TotalIsSum(rows, hs);
    forall i | 0 <= i < |hs|
      ensures Group(rows, hs[i]) != []
    {
      GroupOccurs(rows, hs[i]);
      assert hs[i] in hs;
    }
    WeighedIsTotal(HourlySeries(table, monitor, since), rows, hs);
  }

  // ----- Recording -----

  lemma {:induction false} SelectedAppend(table: seq<Sample>, s: Sample, monitor: string, since: real)
    ensures Selected(table + [s], monitor, since)
         == Selected(table, monitor, since)
            + if Eligible(s, monitor, since) then [Point(s.ts, s.value.value)] else []
  {
    if table != [] {
      assert (table + [s])[1..] == table[1..] + [s];
      SelectedAppend(table[1..], s, monitor, since);
    }
  }

  /** Failed polls, polls without a value, and the rows of other monitors leave no trace in the series. */
  lemma IneligibleIgnored(table: seq<Sample>, s: Sample, monitor: string, since: real)
    requires !Eligible(s, monitor, since)
    ensures HourlySeries(table + [s], monitor, since) == HourlySeries(table, monitor, since)
  {
    SelectedAppend(table, s, monitor, since);
    assert Selected(table + [s], monitor, since) == Selected(table, monitor, since);
  }

  lemma {:induction false} GroupAppend(rows: seq<Point>, p: Point, h: int)
    ensures Group(rows + [p], h) == Group(rows, h) + if Hour(p.ts) == h then [p.value] else []
  {
    if rows != [] {
      assert (rows + [p])[1..] == rows[1..] + [p];
      GroupAppend(rows[1..], p, h);
    }
  }

  /** Which points a series has. */
  lemma PointsOf(table: seq<Sample>, monitor: string, since: real, q: Point)
    ensures var rows := Selected(table, monitor, since);
      q in HourlySeries(table, monitor, since)
      <==> exists h | h in Hours(rows) :: Group(rows, h) != [] && q == Point(Midpoint(h), Mean(Group(rows, h)))
  {
    var rows, series := Selected(table, monitor, since), HourlySeries(table, monitor, since);
    var hs := Hours(rows);
    if q in series {
      var i :| 0 <= i < |series| && series[i] == q;
      GroupOccurs(rows, hs[i]);
      assert hs[i] in hs;
    }
    if h :| h in hs && Group(rows, h) != [] && q == Point(Midpoint(h), Mean(Group(rows, h))) {
      var i :| 0 <= i < |hs| && hs[i] == h;
      assert series[i] == q;
    }
  }

  lemma HoursAppend(rows: seq<Point>, p: Point, h: int)
    ensures h in Hours(rows + [p]) <==> h in Hours(rows) || h == Hour(p.ts)
  {
    if q :| q in rows && Hour(q.ts) == h {
      assert q in rows + [p];
    }
    assert p in rows + [p];
  }

  /** The two series have the same points, those at `ts` apart. */
  ghost predicate SameButAt(before: seq<Point>, after: seq<Point>, ts: real) {
    forall q: Point | q.ts != ts :: q in before <==> q in after
  }

  /** A new row changes the point of its own hour, which is there then, and no other. */
  lemma OnlyItsHour(table: seq<Sample>, s: Sample, monitor: string, since: real)
    requires Eligible(s, monitor, since)
    ensures SameButAt(HourlySeries(table, monitor, since), HourlySeries(table + [s], monitor, since),
            Midpoint(Hour(s.ts)))
    ensures exists q | q in HourlySeries(table + [s], monitor, since) :: q.ts == Midpoint(Hour(s.ts))
  {
    var rows, p, h0 := Selected(table, monitor, since), Point(s.ts, s.value.value), Hour(s.ts);
    SelectedAppend(table, s, monitor, since);
    assert Selected(table + [s], monitor, since) == rows + [p];
    forall q: Point | q.ts != Midpoint(h0)
      ensures q in HourlySeries(table, monitor, since) <==> q in HourlySeries(table + [s], monitor, since)
    {
      forall h
        ensures h != h0 ==> Group(rows + [p], h) == Group(rows, h) && (h in Hours(rows + [p]) <==> h in Hours(rows))
      {
        GroupAppend(rows, p, h);
        HoursAppend(rows, p, h);
      }
      PointsOf(table, monitor, since, q);
      PointsOf(table + [s], monitor, since, q);
    }
    HoursAppend(rows, p, h0);
    GroupAppend(rows, p, h0);
    PointsOf(table + [s], monitor, since, Point(Midpoint(h0), Mean(Group(rows + [p], h0))));
  }

  // ----- The store -----

  class Store {
    var results: seq<Sample>

    constructor ()
      ensures results == []
      ensures forall monitor, since :: HourlySeries(results, monitor, since) == []
    {
      results := [];
    }

    /** Appends a row; what it does to the series of every monitor and window. */
    method Record(s: Sample)
      modifies this
      ensures results == old(results) + [s]
      ensures forall monitor, since | !Eligible(s, monitor, since) ::
        HourlySeries(results, monitor, since) == HourlySeries(old(results), monitor, since)
      ensures forall monitor, since | Eligible(s, monitor, since) ::
        SameButAt(HourlySeries(old(results), monitor, since), HourlySeries(results, monitor, since),
          Midpoint(Hour(s.ts)))
    {
      forall monitor, since
        ensures !Eligible(s, monitor, since) ==>
          HourlySeries(results + [s], monitor, since) == HourlySeries(results, monitor, since)
        ensures Eligible(s, monitor, since) ==>
          SameButAt(HourlySeries(results, monitor, since), HourlySeries(results + [s], monitor, since),
                    Midpoint(Hour(s.ts)))
      {
        if Eligible(s, monitor, since) {
          OnlyItsHour(results, s, monitor, since);
        } else {
          IneligibleIgnored(results, s, monitor, since);
        }
      }
      results := results + [s];
    }

    /** The query: points at least an hour apart whose weighed means conserve the selected values. */
    method Query(monitor: string, since: real) returns (series: seq<Point>)
      ensures series == HourlySeries(results, monitor, since)
      ensures forall i, j | 0 <= i < j < |series| :: series[j].ts - series[i].ts >= 3600.0
      ensures WeighedSum(series, Selected(results, monitor, since)) == Sum(Values(Selected(results, monitor, since)))
    {
      series := HourlySeries(results, monitor, since);
      forall i, j | 0 <= i < j < |series|
        ensures series[j].ts - series[i].ts >= 3600.0
      {
        SeriesSpaced(results, monitor, since, i, j);
      }
      SeriesConserves(results, monitor, since);
    }
  }
}
