/** The shared weather model the provider converters produce: alert
    severities, alerts, minutely and daily entries, and the alert order
    both converters sort by. Instants are milliseconds since the epoch. */
module Domain {
  import opened Wrappers
  import opened WeatherCodes

  /** `AlertSeverity`, with its numeric `id`. */
  datatype AlertSeverity = Unknown | Minor | Moderate | Severe | Extreme

  function SeverityId(s: AlertSeverity): (r: nat)
    ensures r <= 4
    ensures s == Unknown <==> r == 0
  {
    match s
    case Unknown => 0
    case Minor => 1
    case Moderate => 2
    case Severe => 3
    case Extreme => 4
  }

  /** `Color.rgb(red, green, blue)`. */
  datatype Rgb = Rgb(red: int, green: int, blue: int)

  datatype Alert = Alert(
    alertId: string,
    startDate: Option<int>,
    headline: Option<string>,
    description: Option<string>,
    severity: AlertSeverity,
    color: Rgb)

  datatype Minutely = Minutely(date: int, minuteInterval: int, precipitationIntensity: Option<real>)

  datatype AirQuality = AirQuality(pm25: Option<real>)

  /** The half-day fields the converters compute (temperatures and winds
      are copied field by field and are not modelled). */
  datatype HalfDay = HalfDay(
    weatherText: Option<string>,
    weatherCode: Option<WeatherCode>,
    precipitationProbability: Option<real>)

  datatype Daily = Daily(date: int, day: HalfDay, night: HalfDay, airQuality: Option<AirQuality>)

  // ----- Alert order -----

  /** `thenByDescending(Alert::startDate)`: a later date first, and a
      missing date after every present one (Kotlin's `compareValues` puts
      `null` first, and the order is reversed). */
  predicate DateBefore(a: Option<int>, b: Option<int>) {
    a.Some? && (b.None? || a.value > b.value)
  }

  /** `a` sorts strictly before `b`: higher severity id first, then later
      start date first. */
  predicate AlertBefore(a: Alert, b: Alert) {
    SeverityId(a.severity) > SeverityId(b.severity)
    || (SeverityId(a.severity) == SeverityId(b.severity) && DateBefore(a.startDate, b.startDate))
  }

  /** The comparator's sort key: two alerts with the same key compare
      equal. */
  function AlertKey(a: Alert): (nat, Option<int>) {
    (SeverityId(a.severity), a.startDate)
  }

  /** Alerts no later alert sorts strictly before. */
  predicate AlertsSorted(s: seq<Alert>) {
    forall i, j :: 0 <= i < j < |s| ==> !AlertBefore(s[j], s[i])
  }

  /** The alerts of `s` whose key is `k`, in their order in `s`. */
  function WithKey(s: seq<Alert>, k: (nat, Option<int>)): (r: seq<Alert>)
    ensures |r| <= |s|
  {
    if s == [] then []
    else (if AlertKey(s[0]) == k then [s[0]] else []) + WithKey(s[1..], k)
  }

  /** The alerts of key `k` in `[x] + s`: `x` when it has that key, then
      those of `s`. */
  lemma WithKeyCons(x: Alert, s: seq<Alert>, k: (nat, Option<int>))
    ensures WithKey([x] + s, k) == (if AlertKey(x) == k then [x] else []) + WithKey(s, k)
  {
    assert ([x] + s)[1..] == s;
  }

  /** Two alerts are either ordered one way, the other way, or have the
      same key. */
  lemma AlertOrderTotal(a: Alert, b: Alert)
    ensures AlertBefore(a, b) || AlertBefore(b, a) || AlertKey(a) == AlertKey(b)
    ensures AlertBefore(a, b) ==> !AlertBefore(b, a) && AlertKey(a) != AlertKey(b)
  {
  }

  /** An alert that sorts no later than the head of a sorted list can be
      put in front of it. */
  lemma PrependSorted(x: Alert, s: seq<Alert>)
    requires AlertsSorted(s) && (s == [] || !AlertBefore(s[0], x))
    ensures AlertsSorted([x] + s)
  {
    forall j | 0 < j < |[x] + s| ensures !AlertBefore(([x] + s)[j], x) {
      assert !AlertBefore(s[j - 1], s[0]);
    }
  }

  /** An alert that sorts no later than every member of a sorted list can
      be put in front of it. */
  lemma PrependBeforeAll(h: Alert, rest: seq<Alert>)
    requires AlertsSorted(rest)
    requires forall e | e in multiset(rest) :: !AlertBefore(e, h)
    ensures AlertsSorted([h] + rest)
  {
    forall j | 0 < j < |[h] + rest| ensures !AlertBefore(([h] + rest)[j], h) {
      assert rest[j - 1] in multiset(rest);
    }
  }

  /** Every member of the sorted tail, and the inserted alert that sorts
      after the head, sorts no earlier than the head. */
  lemma HeadBeforeInserted(x: Alert, s: seq<Alert>, rest: seq<Alert>)
    requires s != [] && AlertBefore(s[0], x) && AlertsSorted(s)
    requires multiset(rest) == multiset(s[1..]) + multiset{x}
    ensures forall e | e in multiset(rest) :: !AlertBefore(e, s[0])
  {
    forall e | e in multiset(rest) ensures !AlertBefore(e, s[0]) {
      if e == x {
        AlertOrderTotal(s[0], x);
      } else {
        assert e in multiset(s[1..]);
        var i :| 0 <= i < |s[1..]| && s[1..][i] == e;
        assert s[i + 1] == e;
      }
    }
  }

  /** Insertion of `x` in front of the first alert that does not sort
      strictly before it. */
  function InsertAlert(x: Alert, s: seq<Alert>): (r: seq<Alert>)
    ensures multiset(r) == multiset(s) + multiset{x}
    ensures AlertsSorted(s) ==> AlertsSorted(r)
  {
    if s == [] || !AlertBefore(s[0], x) then
      assert AlertsSorted(s) ==> AlertsSorted([x] + s) by {
        if AlertsSorted(s) {
          PrependSorted(x, s);
        }
      }
      [x] + s
    else
      var rest := InsertAlert(x, s[1..]);
      assert s == [s[0]] + s[1..];
      assert AlertsSorted(s) ==> AlertsSorted([s[0]] + rest) by {
        if AlertsSorted(s) {
          assert AlertsSorted(s[1..]);
          HeadBeforeInserted(x, s, rest);
          PrependBeforeAll(s[0], rest);
        }
      }
      [s[0]] + rest
  }

  /** Inserting `x` keeps the alerts of each key in the order `[x] + s`
      lists them. */
  lemma {:induction false} InsertAlertStable(x: Alert, s: seq<Alert>, k: (nat, Option<int>))
    ensures WithKey(InsertAlert(x, s), k) == WithKey([x] + s, k)
  {
    if s == [] || !AlertBefore(s[0], x) {
    } else {
      InsertAlertStable(x, s[1..], k);
      AlertOrderTotal(s[0], x);
      assert ([x] + s)[1..] == s;
      assert ([x] + s[1..])[1..] == s[1..];
    }
  }

  /** `sortedWith(compareByDescending { it.severity.id }
      .thenByDescending(Alert::startDate))`: a stable sort. The result is a
      permutation of the input, no alert comes after one it sorts strictly
      before, and alerts with equal keys keep their input order. */
  function SortAlerts(xs: seq<Alert>): (r: seq<Alert>)
    ensures multiset(r) == multiset(xs)
    ensures |r| == |xs|
    ensures AlertsSorted(r)
    ensures forall k :: WithKey(r, k) == WithKey(xs, k)
  {
    if xs == [] then []
    else
      var rest := SortAlerts(xs[1..]);
      assert xs == [xs[0]] + xs[1..];
      assert multiset(xs) == multiset{xs[0]} + multiset(xs[1..]);
      var r := InsertAlert(xs[0], rest);
      assert |r| == |multiset(r)|;
      forall k ensures WithKey(r, k) == WithKey(xs, k) {
        InsertAlertStable(xs[0], rest, k);
        WithKeyCons(xs[0], rest, k);
        WithKeyCons(xs[0], xs[1..], k);
      }
      r
  }

  /** A list already in order is returned unchanged. */
  lemma {:induction false} SortAlertsOfSorted(xs: seq<Alert>)
    requires AlertsSorted(xs)
    ensures SortAlerts(xs) == xs
  {
    if xs != [] {
      assert AlertsSorted(xs[1..]);
      SortAlertsOfSorted(xs[1..]);
      if |xs| > 1 {
        assert !AlertBefore(xs[1..][0], xs[0]);
      }
      assert xs == [xs[0]] + xs[1..];
    }
  }
}
