/** When the fitted line reaches a monitor's thresholds (watchpost/forecast.py). */
module Forecasts {
  import opened Wrappers
  import opened Fits

  datatype Direction = Above | Below

  datatype Name = Warn | Crit

  datatype Thresholds = Thresholds(direction: Direction, warn: Option<real>, crit: Option<real>) {
    function Level(name: Name): Option<real> {
      if name.Warn? then warn else crit
    }
  }

  datatype Settings = Settings(minPoints: int, minSpanHours: real, horizonDays: real, minR2: real)

  datatype Crossing = Already(at: real) | Never | Future(at: real)

  datatype Status = Projected | NotTrending | BeyondHorizon | AlreadyCrossed | InsufficientData

  datatype Confidence = Normal | Low

  datatype Forecast = Forecast(
    status: Status,
    warnAt: Option<real>,
    critAt: Option<real>,
    confidence: Option<Confidence>,
    fit: Option<Fit>,
    computedAt: real)
  {
    function At(name: Name): Option<real> {
      if name.Warn? then warnAt else critAt
    }
  }

  function CrossingOf(fit: Fit, level: real, direction: Direction, now: real): Crossing {
    var rising := direction.Above?;
    var current := fit.ValueAt(now);
    if (rising && current >= level) || (!rising && current <= level) then Already(now) else
      var b := fit.slopePerDay / 86400.0;
      if b == 0.0 || (rising && b < 0.0) || (!rising && b > 0.0) then Never
      else Future((level - fit.intercept) / b)
  }

  // ----- What a crossing means -----

  /** At time t the line is on the wrong side of the level. */
  predicate Past(fit: Fit, level: real, direction: Direction, t: real) {
    if direction.Above? then fit.ValueAt(t) >= level else fit.ValueAt(t) <= level
  }

  /** t is the first time from now on at which the line is past the level. */
  ghost predicate FirstPast(fit: Fit, level: real, direction: Direction, now: real, t: real) {
    && now <= t
    && Past(fit, level, direction, t)
    && forall s | now <= s < t :: !Past(fit, level, direction, s)
  }

  lemma ValueMoves(fit: Fit, s: real, t: real)
    ensures fit.ValueAt(t) == fit.ValueAt(s) + fit.Slope() * (t - s)
  {
    Distribute(fit.slopePerDay / 86400.0, s, t);
  }

  lemma Distribute(b: real, s: real, t: real)
    ensures b * t == b * s + b * (t - s)
  {
  }

  lemma ProductSign(b: real, x: real)
    ensures b > 0.0 && x > 0.0 ==> b * x > 0.0
    ensures b > 0.0 && x < 0.0 ==> b * x < 0.0
    ensures b < 0.0 && x > 0.0 ==> b * x < 0.0
    ensures b < 0.0 && x < 0.0 ==> b * x > 0.0
    ensures b == 0.0 || x == 0.0 ==> b * x == 0.0
  {
    if x < 0.0 {
      assert b * x == -(b * (-x));
    }
  }

  /** The line meets the level at the time that is solved for, and nowhere else. */
  lemma MeetsAt(fit: Fit, level: real, t: real)
    requires fit.Slope() != 0.0
    ensures var at := (level - fit.intercept) / fit.Slope();
      && fit.ValueAt(at) == level
      && (t > at ==> (fit.ValueAt(t) > level <==> fit.Slope() > 0.0) && fit.ValueAt(t) != level)
      && (t < at ==> (fit.ValueAt(t) > level <==> fit.Slope() < 0.0) && fit.ValueAt(t) != level)
  {
    var at := (level - fit.intercept) / fit.Slope();
    ValueMoves(fit, at, t);
    ProductSign(fit.Slope(), t - at);
  }

  /** A line that is not past the level and does not head for it never gets past it. */
  lemma NeverPast(fit: Fit, level: real, direction: Direction, now: real, t: real)
    requires CrossingOf(fit, level, direction, now).Never? && t >= now
    ensures !Past(fit, level, direction, t)
  {
    ValueMoves(fit, now, t);
    ProductSign(fit.Slope(), t - now);
  }

  /**
   * The three answers are exact: "already" is past now; "future" is the one time
   * the line equals the level, later than now, and the line is past the level from
   * then on and not before; "never" is never.
   */
  lemma CrossingExact(fit: Fit, level: real, direction: Direction, now: real)
    ensures match CrossingOf(fit, level, direction, now)
      case Already(at) => at == now && FirstPast(fit, level, direction, now, now)
      case Future(at) =>
        && now < at && FirstPast(fit, level, direction, now, at)
        && (forall t :: fit.ValueAt(t) == level <==> t == at)
        && (forall t | t >= at :: Past(fit, level, direction, t))
      case Never => forall t | t >= now :: !Past(fit, level, direction, t)
  {
    match CrossingOf(fit, level, direction, now)
    case Already(_) =>
    case Never =>
      forall t | t >= now
        ensures !Past(fit, level, direction, t)
      {
        NeverPast(fit, level, direction, now, t);
      }
    case Future(at) =>
      MeetsAt(fit, level, now);
      forall t
        ensures fit.ValueAt(t) == level <==> t == at
        ensures t >= at <==> Past(fit, level, direction, t)
      {
        MeetsAt(fit, level, t);
      }
  }

  // ----- What a forecast means -----

  /** No threshold, too few points, points of one instant only, or too short a time from the first to the last. */
  ghost predicate Insufficient(points: seq<Point>, th: Thresholds, cfg: Settings) {
    || (th.warn.None? && th.crit.None?)
    || |points| < cfg.minPoints
    || !Spread(points)
    || (points[|points| - 1].ts - points[0].ts) / 3600.0 < cfg.minSpanHours
  }

  lemma SufficientIsFitted(points: seq<Point>, th: Thresholds, cfg: Settings)
    requires !Insufficient(points, th, cfg)
    ensures LeastSquares(points).Some?
  {
    FitExists(points);
  }

  /** The line is past one of the thresholds that are set. */
  ghost predicate Crossed(fit: Fit, th: Thresholds, t: real) {
    CrossedOne(fit, th, Warn, t) || CrossedOne(fit, th, Crit, t)
  }

  ghost predicate CrossedOne(fit: Fit, th: Thresholds, name: Name, t: real) {
    th.Level(name).Some? && Past(fit, th.Level(name).value, th.direction, t)
  }

  /** The date, if any, is the first time at or past the level, and there is one unless that is past the horizon. */
  ghost predicate Dated(fit: Fit, level: Option<real>, direction: Direction, now: real, horizon: real,
                        at: Option<real>) {
    match at
    case Some(t) => level.Some? && FirstPast(fit, level.value, direction, now, t) && t <= horizon
    case None => level.Some? ==> forall t | now <= t <= horizon :: !Past(fit, level.value, direction, t)
  }

  ghost predicate StatusMeans(status: Status, fit: Fit, th: Thresholds, now: real, horizon: real) {
    match status
    case InsufficientData => false
    case AlreadyCrossed => Crossed(fit, th, now)
    case Projected => !Crossed(fit, th, now) && exists t :: now <= t <= horizon && Crossed(fit, th, t)
    case BeyondHorizon =>
      && !Crossed(fit, th, now)
      && (forall t | now <= t <= horizon :: !Crossed(fit, th, t))
      && exists t :: now <= t && Crossed(fit, th, t)
    case NotTrending => forall t | now <= t :: !Crossed(fit, th, t)
  }

  ghost predicate IsForecast(points: seq<Point>, th: Thresholds, cfg: Settings, now: real, out: Forecast) {
    if Insufficient(points, th, cfg) then
      out == Forecast(InsufficientData, None, None, None, None, now)
    else
      SufficientIsFitted(points, th, cfg);
      var fit := LeastSquares(points).value;
      var horizon := now + cfg.horizonDays * 86400.0;
      && out.computedAt == now
      && out.fit == Some(fit)
      && out.confidence == Some(if fit.r2 >= cfg.minR2 then Normal else Low)
      && (forall name: Name :: Dated(fit, th.Level(name), th.direction, now, horizon, out.At(name)))
      && StatusMeans(out.status, fit, th, now, horizon)
  }

  // ----- The projection loop -----

  datatype Progress = Progress(warnAt: Option<real>, critAt: Option<real>, results: map<Name, Crossing>) {
    function At(name: Name): Option<real> {
      if name.Warn? then warnAt else critAt
    }
  }

  /** After the named threshold: its crossing is recorded, and its date if it is within the horizon. */
  ghost predicate Handled(p: Progress, name: Name, fit: Fit, th: Thresholds, now: real, horizon: real) {
    && (name in p.results <==> th.Level(name).Some?)
    && (name in p.results ==> p.results[name] == CrossingOf(fit, th.Level(name).value, th.direction, now))
    && p.At(name) == (if name in p.results && !p.results[name].Never? && p.results[name].at <= horizon
                      then Some(p.results[name].at) else None)
  }

  method Cross(p: Progress, name: Name, fit: Fit, th: Thresholds, now: real, horizon: real) returns (q: Progress)
    requires name !in p.results && p.At(name).None?
    ensures Handled(q, name, fit, th, now, horizon)
    ensures forall other: Name | other != name ::
      q.At(other) == p.At(other) && (other in q.results <==> other in p.results)
      && (other in p.results ==> q.results[other] == p.results[other])
  {
    q := p;
    var level := th.Level(name);
    if level.Some? {
      var crossing := CrossingOf(fit, level.value, th.direction, now);
      q := q.(results := q.results[name := crossing]);
      if !crossing.Never? && crossing.at <= horizon {
        if name.Warn? {
          q := q.(warnAt := Some(crossing.at));
        } else {
          q := q.(critAt := Some(crossing.at));
        }
      }
    }
  }

  lemma HandledIsDated(p: Progress, name: Name, fit: Fit, th: Thresholds, now: real, horizon: real)
    requires Handled(p, name, fit, th, now, horizon)
    ensures Dated(fit, th.Level(name), th.direction, now, horizon, p.At(name))
  {
    if name in p.results {
      CrossingExact(fit, th.Level(name).value, th.direction, now);
    }
  }

  predicate AnyAlready(results: map<Name, Crossing>) {
    (Warn in results && results[Warn].Already?) || (Crit in results && results[Crit].Already?)
  }

  predicate AnyFuture(results: map<Name, Crossing>) {
    (Warn in results && results[Warn].Future?) || (Crit in results && results[Crit].Future?)
  }

  function Select(p: Progress): Status {
    if AnyAlready(p.results) then AlreadyCrossed
    else if p.warnAt.Some? || p.critAt.Some? then Projected
    else if AnyFuture(p.results) then BeyondHorizon
    else NotTrending
  }

  /** When the loop found the named threshold to be crossed. */
  function Reach(p: Progress, name: Name): Option<real> {
    if name in p.results && !p.results[name].Never? then Some(p.results[name].at) else None
  }

  /** The recorded crossing is where the line gets past the threshold. */
  ghost predicate Reached(p: Progress, name: Name, fit: Fit, th: Thresholds, now: real) {
    && (forall t | now <= t :: CrossedOne(fit, th, name, t) ==> Reach(p, name).Some? && Reach(p, name).value <= t)
    && (Reach(p, name).Some? ==>
          && now <= Reach(p, name).value
          && CrossedOne(fit, th, name, Reach(p, name).value)
          && (p.results[name].Already? <==> Reach(p, name).value == now))
  }

  lemma HandledIsReached(p: Progress, name: Name, fit: Fit, th: Thresholds, now: real, horizon: real)
    requires Handled(p, name, fit, th, now, horizon)
    ensures Reached(p, name, fit, th, now)
  {
    if name in p.results {
      CrossingExact(fit, th.Level(name).value, th.direction, now);
    }
  }

  lemma SelectedStatus(p: Progress, fit: Fit, th: Thresholds, now: real, horizon: real)
    requires Handled(p, Warn, fit, th, now, horizon) && Handled(p, Crit, fit, th, now, horizon)
    ensures StatusMeans(Select(p), fit, th, now, horizon)
  {
    HandledIsReached(p, Warn, fit, th, now, horizon);
    HandledIsReached(p, Crit, fit, th, now, horizon);
    var w, c := Reach(p, Warn), Reach(p, Crit);
    match Select(p)
    case AlreadyCrossed =>
    case Projected =>
      assert Crossed(fit, th, if p.warnAt.Some? then w.value else c.value);
    case BeyondHorizon =>
      assert Crossed(fit, th, if w.Some? then w.value else c.value);
    case NotTrending =>
  }

  lemma SelectedIsForecast(points: seq<Point>, th: Thresholds, cfg: Settings, now: real, p: Progress, out: Forecast)
    requires !Insufficient(points, th, cfg) && LeastSquares(points).Some?
    requires var fit := LeastSquares(points).value;
      var horizon := now + cfg.horizonDays * 86400.0;
      && Handled(p, Warn, fit, th, now, horizon) && Handled(p, Crit, fit, th, now, horizon)
      && out == Forecast(Select(p), p.warnAt, p.critAt,
                         Some(if fit.r2 >= cfg.minR2 then Normal else Low), Some(fit), now)
    ensures IsForecast(points, th, cfg, now, out)
  {
    var fit, horizon := LeastSquares(points).value, now + cfg.horizonDays * 86400.0;
    forall name: Name
      ensures Dated(fit, th.Level(name), th.direction, now, horizon, out.At(name))
    {
      HandledIsDated(p, name, fit, th, now, horizon);
    }
    SelectedStatus(p, fit, th, now, horizon);
  }

  method Project(points: seq<Point>, th: Thresholds, cfg: Settings, now: real) returns (out: Forecast)
    ensures IsForecast(points, th, cfg, now, out)
  {
    if th.warn.None? && th.crit.None? {
      return Forecast(InsufficientData, None, None, None, None, now);
    }
    if |points| < cfg.minPoints {
      return Forecast(InsufficientData, None, None, None, None, now);
    }
    var maybe := LeastSquares(points);
    FitExists(points);
    if maybe.Some? {
      FitMeasures(points);
    }
    if maybe.None? || maybe.value.spanHours < cfg.minSpanHours {
      return Forecast(InsufficientData, None, None, None, None, now);
    }
    var fit := maybe.value;
    var confidence := if fit.r2 >= cfg.minR2 then Normal else Low;
    var horizon := now + cfg.horizonDays * 86400.0;
    out := Forecast(NotTrending, None, None, Some(confidence), Some(fit), now);
    var names := [Warn, Crit];
    var results: map<Name, Crossing> := map[];
    for i := 0 to |names|
      invariant out.computedAt == now && out.fit == Some(fit) && out.confidence == Some(confidence)
      invariant out.status == NotTrending
      invariant forall j | 0 <= j < |names| ::
        if j < i then Handled(Progress(out.warnAt, out.critAt, results), names[j], fit, th, now, horizon)
        else names[j] !in results && Progress(out.warnAt, out.critAt, results).At(names[j]).None?
    {
      var p := Cross(Progress(out.warnAt, out.critAt, results), names[i], fit, th, now, horizon);
      out := out.(warnAt := p.warnAt, critAt := p.critAt);
      results := p.results;
    }
    assert names[0] == Warn && names[1] == Crit;
    if AnyAlready(results) {
      out := out.(status := AlreadyCrossed);
    } else if out.warnAt.Some? || out.critAt.Some? {
      out := out.(status := Projected);
    } else if AnyFuture(results) {
      out := out.(status := BeyondHorizon);
    }
    SelectedIsForecast(points, th, cfg, now, Progress(out.warnAt, out.critAt, results), out);
  }

  // ----- What a reader of a forecast may rely on -----

  /** Warn is no further out than crit. */
  predicate Ordered(th: Thresholds) {
    th.warn.Some? && th.crit.Some?
    && (if th.direction.Above? then th.warn.value <= th.crit.value else th.warn.value >= th.crit.value)
  }

  /** A date for crit comes with an earlier or equal date for warn, both between now and the horizon. */
  lemma DatesOrdered(points: seq<Point>, th: Thresholds, cfg: Settings, now: real, out: Forecast)
    requires IsForecast(points, th, cfg, now, out)
    requires Ordered(th) && out.critAt.Some?
    ensures out.warnAt.Some?
    ensures now <= out.warnAt.value <= out.critAt.value <= now + cfg.horizonDays * 86400.0
  {
    SufficientIsFitted(points, th, cfg);
    var fit, horizon := LeastSquares(points).value, now + cfg.horizonDays * 86400.0;
    assert Dated(fit, th.Level(Warn), th.direction, now, horizon, out.At(Warn));
    assert Dated(fit, th.Level(Crit), th.direction, now, horizon, out.At(Crit));
    assert Past(fit, th.warn.value, th.direction, out.critAt.value);
  }

  /** There is a date exactly for the statuses "projected" and, unless the horizon is behind us, "already crossed". */
  lemma DatesMatchStatus(points: seq<Point>, th: Thresholds, cfg: Settings, now: real, out: Forecast)
    requires IsForecast(points, th, cfg, now, out)
    ensures out.warnAt.Some? || out.critAt.Some? ==> out.status.Projected? || out.status.AlreadyCrossed?
    ensures out.status.Projected? ==> out.warnAt.Some? || out.critAt.Some?
    ensures out.status.AlreadyCrossed? && cfg.horizonDays >= 0.0 ==> out.warnAt == Some(now) || out.critAt == Some(now)
  {
    if !Insufficient(points, th, cfg) {
      SufficientIsFitted(points, th, cfg);
      var fit, horizon := LeastSquares(points).value, now + cfg.horizonDays * 86400.0;
      assert Dated(fit, th.Level(Warn), th.direction, now, horizon, out.At(Warn));
      assert Dated(fit, th.Level(Crit), th.direction, now, horizon, out.At(Crit));
      if out.warnAt.Some? {
        assert Crossed(fit, th, out.warnAt.value);
      }
      if out.critAt.Some? {
        assert Crossed(fit, th, out.critAt.value);
      }
      if out.status.AlreadyCrossed? && cfg.horizonDays >= 0.0 {
        var name := if CrossedOne(fit, th, Warn, now) then Warn else Crit;
        assert Past(fit, th.Level(name).value, th.direction, now);
      }
    }
  }
}
