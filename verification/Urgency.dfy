/**
  What quota evidence means for the plan: when a credential is depleted, when
  it is boosted, and which of two credentials is the more urgent.
 */
module Urgency {
  import opened GuardTypes
  import opened QuotaWindows
  import opened Planner

  /** Weekly points left, as the weekly window says or else the group's headline. */
  function WeeklyLeft(q: Quota): Option<int> {
    if q.longRemaining.Some? then q.longRemaining else q.remaining
  }

  predicate WeeklyGone(q: Quota) {
    WeeklyLeft(q).Some? && WeeklyLeft(q).value <= 0
  }

  predicate ShortGone(q: Quota) {
    !WeeklyGone(q) && q.shortRemaining.Some? && q.shortRemaining.value <= 0
  }

  /** Time until a reset; none if it is unknown or past. */
  function Ahead(window: Option<Time>, headline: Option<Time>, now: Time): nat {
    var reset := if window.Some? then window else headline;
    if reset.None? || reset.value <= now then 0 else reset.value - now
  }

  /**
    What is left of the week outlasts the time until it resets, at the burn
    rate, and neither window is exhausted.
   */
  predicate Hurried(q: Quota, now: Time) {
    var rate := if q.burnRate <= 0.0 then 0.15 else q.burnRate;
    && WeeklyLeft(q).Some? && WeeklyLeft(q).value > 0 && !ShortGone(q)
    && Outlasts(WeeklyLeft(q).value as real, rate, Ahead(q.longResetAt, q.resetAt, now) as real)
  }

  /** So many points last for a time, if the rate is what is spent of a whole in five hours. */
  predicate Outlasts(points: real, rate: real, time: real) {
    time * rate * 100.0 <= (5 * HOUR) as real * points
  }

  lemma Cross(left: real, rate: real, hours: real)
    requires rate > 0.0
    ensures hours <= left / rate * 5.0 <==> hours * rate <= left * 5.0
  {
    var required := left / rate * 5.0;
    assert required * rate == left * 5.0;
    if hours <= required {
      assert hours * rate <= required * rate;
    } else {
      assert hours * rate > required * rate;
    }
  }

  lemma InHours(ahead: real, rate: real, left: real)
    ensures ahead / HOUR as real * rate <= left / 100.0 * 5.0 <==> ahead * rate * 100.0 <= (5 * HOUR) as real * left
  {
    assert ahead / HOUR as real * rate * HOUR as real * 100.0 == ahead * rate * 100.0;
    assert left / 100.0 * 5.0 * HOUR as real * 100.0 == (5 * HOUR) as real * left;
  }

  lemma Multiplied(ahead: real, rate: real, left: real)
    requires rate > 0.0
    ensures ahead / HOUR as real <= left / 100.0 / rate * 5.0 <==> Outlasts(left, rate, ahead)
  {
    Cross(left / 100.0, rate, ahead / HOUR as real);
    InHours(ahead, rate, left);
  }

  /** A credential is parked, held back or boosted exactly as its own evidence says. */
  lemma MetricsMean(q: Quota, now: Time)
    ensures var m := MetricsOf(q, now);
            && (m.weeklyDepleted <==> WeeklyGone(q))
            && (m.shortDepleted <==> ShortGone(q))
            && (m.boosted <==> Hurried(q, now))
            && m.t5h == Ahead(q.shortResetAt, q.resetAt, now) as real / HOUR as real
  {
    if WeeklyLeft(q).Some? && WeeklyLeft(q).value > 0 {
      BoostIsHurry(q, now);
    }
    hide Hurried, CompositeScore;
  }

  lemma BoostIsHurry(q: Quota, now: Time)
    requires WeeklyLeft(q).Some? && WeeklyLeft(q).value > 0
    ensures MetricsOf(q, now).boosted <==> Hurried(q, now)
  {
    BoostMeans(q, now);
    Multiplied(Ahead(q.longResetAt, q.resetAt, now) as real, if q.burnRate <= 0.0 then 0.15 else q.burnRate, WeeklyLeft(q).value as real);
    hide MetricsOf, Ahead, ShortGone, WeeklyLeft, Outlasts;
  }

  /** The boost test in hours, as it is made. */
  lemma BoostMeans(q: Quota, now: Time)
    requires WeeklyLeft(q).Some? && WeeklyLeft(q).value > 0
    ensures MetricsOf(q, now).boosted
            <==> !ShortGone(q)
                 && Ahead(q.longResetAt, q.resetAt, now) as real / HOUR as real
                    <= WeeklyLeft(q).value as real / 100.0 / (if q.burnRate <= 0.0 then 0.15 else q.burnRate) * 5.0
  {
    hide CompositeScore;
  }

  /** Points left in the five-hour window, as it says, or the headline, or else the week. */
  function ShortLeft(q: Quota): int {
    if q.shortRemaining.Some? then q.shortRemaining.value
    else if q.remaining.Some? then q.remaining.value
    else if q.longRemaining.Some? then q.longRemaining.value
    else 0
  }

  function Points(left: Option<int>): int {
    if left.Some? then left.value else 0
  }

  /** At least as much left in both windows, and neither resets later. */
  predicate AtLeastAsPressing(a: Quota, b: Quota, now: Time) {
    && Points(WeeklyLeft(a)) >= Points(WeeklyLeft(b))
    && ShortLeft(a) >= ShortLeft(b)
    && Ahead(a.longResetAt, a.resetAt, now) <= Ahead(b.longResetAt, b.resetAt, now)
    && Ahead(a.shortResetAt, a.resetAt, now) <= Ahead(b.shortResetAt, b.resetAt, now)
  }

  function Share(points: int): real {
    if points <= 0 then 0.0 else points as real / 100.0
  }

  lemma UrgencyIsScore(q: Quota, now: Time)
    ensures MetricsOf(q, now).urgency
            == CompositeScore(Share(Points(WeeklyLeft(q))), Ahead(q.longResetAt, q.resetAt, now) as real / HOUR as real,
                              Share(ShortLeft(q)), Ahead(q.shortResetAt, q.resetAt, now) as real / HOUR as real)
  {
    hide CompositeScore;
  }

  lemma Sign(x: real, c: real)
    requires x * c >= 0.0 && c > 0.0
    ensures x >= 0.0
  {
  }

  lemma SameProduct(p: real, q: real, c: real, d: real)
    requires q >= 0.0 && c >= d > 0.0 && p * c <= q * d
    ensures p <= q
  {
    assert q * (c - d) >= 0.0;
    assert (q - p) * c >= 0.0;
    Sign(q - p, c);
  }

  lemma QuotientFalls(x: real, y: real, c: real, d: real)
    requires 0.0 <= x <= y && c >= d > 0.0
    ensures x / c <= y / d
  {
    assert x / c * c == x && y / d * d == y;
    NotNegative(y, d);
    SameProduct(x / c, y / d, c, d);
  }

  lemma NotNegative(y: real, d: real)
    requires y >= 0.0 && d > 0.0
    ensures y / d >= 0.0
  {
  }

  lemma ScoreRises(a7: real, ta: real, a5: real, sa: real, b7: real, tb: real, b5: real, sb: real)
    requires 0.0 <= b7 <= a7 && 0.0 <= b5 <= a5 && ta <= tb && sa <= sb
    ensures CompositeScore(b7, tb, b5, sb) <= CompositeScore(a7, ta, a5, sa)
  {
    var da, db := if ta < 0.5 then 0.5 else ta, if tb < 0.5 then 0.5 else tb;
    QuotientFalls(b7, a7, db, da);
    NotNegative(a7, da);
  }

  /** A credential with at least as much left in both windows, of which neither resets later, is at least as urgent. */
  lemma UrgencyIsMonotone(a: Quota, b: Quota, now: Time)
    requires AtLeastAsPressing(a, b, now)
    ensures MetricsOf(a, now).urgency >= MetricsOf(b, now).urgency
  {
    UrgencyIsScore(a, now);
    UrgencyIsScore(b, now);
    hide MetricsOf, CompositeScore, WeeklyLeft, ShortLeft, Ahead;
    SharesRise(a, b, now);
    var h := HOUR as real;
    ScoreRises(Share(Points(WeeklyLeft(a))), Ahead(a.longResetAt, a.resetAt, now) as real / h,
               Share(ShortLeft(a)), Ahead(a.shortResetAt, a.resetAt, now) as real / h,
               Share(Points(WeeklyLeft(b))), Ahead(b.longResetAt, b.resetAt, now) as real / h,
               Share(ShortLeft(b)), Ahead(b.shortResetAt, b.resetAt, now) as real / h);
  }

  lemma SharesRise(a: Quota, b: Quota, now: Time)
    requires AtLeastAsPressing(a, b, now)
    ensures 0.0 <= Share(Points(WeeklyLeft(b))) <= Share(Points(WeeklyLeft(a)))
    ensures 0.0 <= Share(ShortLeft(b)) <= Share(ShortLeft(a))
    ensures Ahead(a.longResetAt, a.resetAt, now) as real / HOUR as real <= Ahead(b.longResetAt, b.resetAt, now) as real / HOUR as real
    ensures Ahead(a.shortResetAt, a.resetAt, now) as real / HOUR as real <= Ahead(b.shortResetAt, b.resetAt, now) as real / HOUR as real
  {
  }

  lemma EvenPace(left: real)
    requires left > 0.0
    ensures (left / 100.0) / (1.68 * left) * 168.0 == 1.0
  {
    var z := (left / 100.0) / (1.68 * left);
    assert z * (1.68 * left) == left / 100.0;
    assert (z * 168.0 - 1.0) * left == 0.0;
  }

  /**
    The scale: a week spent evenly counts 0.4, what is left of it up to 0.3,
    of the five-hour window up to 0.2, and a five-hour reset at hand 0.1.
   */
  lemma UrgencyScale(q: Quota, now: Time)
    requires 0 < Points(WeeklyLeft(q)) <= 100 && 0 <= ShortLeft(q) <= 100
    requires Ahead(q.longResetAt, q.resetAt, now) as real / HOUR as real == 1.68 * Points(WeeklyLeft(q)) as real
    requires Points(WeeklyLeft(q)) as real * 1.68 >= 0.5
    ensures var u := MetricsOf(q, now).urgency;
            var base := 0.4 + 0.003 * Points(WeeklyLeft(q)) as real + 0.002 * ShortLeft(q) as real;
            && (Ahead(q.shortResetAt, q.resetAt, now) == 0 ==> u == base + 0.1)
            && (Ahead(q.shortResetAt, q.resetAt, now) >= 5 * HOUR ==> u == base)
  {
    UrgencyIsScore(q, now);
    hide MetricsOf, WeeklyLeft, ShortLeft, Ahead;
    var left := Points(WeeklyLeft(q)) as real;
    EvenPace(left);
    var short := Ahead(q.shortResetAt, q.resetAt, now) as real / HOUR as real;
    assert Ahead(q.shortResetAt, q.resetAt, now) >= 5 * HOUR ==> short >= 5.0;
  }
}
