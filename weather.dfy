/**
 * The weather function: it reads a NASA POWER daily-point response and derives
 * the current conditions, a forecast of the latest valid days (most recent
 * first) and a list of threshold alerts.
 *
 * Measurements are exact reals. JavaScript's `undefined` (a date missing from a
 * series) is `Measurement.Absent`; every `>` on it is false, as in JavaScript.
 */
module Weather {
  import opened Wrappers
  import opened Text

  /** The value NASA POWER uses for a missing daily reading. */
  const Sentinel: real := -999.0

  /** One series entry as read by `props.X[date]`. */
  datatype Measurement = Absent | Present(value: real)

  /**
   * The series of `properties.parameter` as the computation reads them. `keys`
   * is `Object.keys(props.T2M)`; each series maps a YYYYMMDD key to its
   * reading.
   */
  datatype PowerData = PowerData(
    keys: seq<string>,
    t2m: map<string, real>,
    t2mMax: map<string, real>,
    t2mMin: map<string, real>,
    rh2m: map<string, real>,
    ws10m: map<string, real>,
    ws10mMax: map<string, real>,
    wd10m: map<string, real>,
    precipitation: map<string, real>,
    uvIndex: map<string, real>)

  /**
   * The `properties.parameter` object as received: any series may be missing.
   * `keys` is the key order of T2M when it is present.
   */
  datatype Parameters = Parameters(
    keys: seq<string>,
    t2m: Option<map<string, real>>,
    t2mMax: Option<map<string, real>>,
    t2mMin: Option<map<string, real>>,
    rh2m: Option<map<string, real>>,
    ws10m: Option<map<string, real>>,
    ws10mMax: Option<map<string, real>>,
    wd10m: Option<map<string, real>>,
    precipitation: Option<map<string, real>>,
    uvIndex: Option<map<string, real>>)

  /** What the upstream request produced: a non-2xx status, or a body with or without `properties.parameter`. */
  datatype PowerResponse = HttpError(status: int) | Body(props: Option<Parameters>)

  /** The optional coordinates of the incoming request body. */
  datatype WeatherRequest = WeatherRequest(latitude: Option<real>, longitude: Option<real>)

  /**
   * `MissingSeries` is the `TypeError` of reading `props.X[date]` when the
   * response lacks series X; the handler answers with its message.
   */
  datatype WeatherError = ApiFailed(status: int) | InvalidResponse | NoValidData | MissingSeries

  /** The forecast label of a day: the latest day, or the weekday of the given ISO date. */
  datatype DayLabel = Latest | Weekday(isoDate: string)

  datatype ForecastDay = ForecastDay(
    date: string,
    day: DayLabel,
    tempMax: real,
    tempMin: real,
    rain: real,
    weatherCode: int,
    windMax: Option<real>)

  datatype Current = Current(
    temperature: real,
    humidity: real,
    windSpeed: Option<real>,
    windDirection: real,
    uvIndex: real,
    condition: string)

  datatype AlertType = Warning | Info | Success

  /** The alert texts; each names the day and the value that triggered it. */
  datatype AlertText =
    | HeavyRainfall(day: DayLabel, rain: real)
    | ModerateRain(day: DayLabel, rain: real)
    | ExtremeHeat(day: DayLabel, tempMax: real)
    | HighWinds(day: DayLabel, windMax: real)
    | Favorable

  datatype Alert = Alert(kind: AlertType, text: AlertText)

  datatype Report = Report(
    current: Current,
    forecast: seq<ForecastDay>,
    alerts: seq<Alert>,
    latitude: real,
    longitude: real,
    source: string)

  // ---------------------------------------------------------------------------
  // Readings

  function Lookup(series: map<string, real>, date: string): (m: Measurement)
    ensures m.Present? <==> date in series
    ensures m.Present? ==> m.value == series[date]
  {
    if date in series then Present(series[date]) else Absent
  }

  /** JavaScript's `m > t`: false when the reading is missing. */
  predicate Above(m: Measurement, t: real) {
    m.Present? && m.value > t
  }

  /** `a ?? b`. */
  function OrElse(a: Measurement, b: Measurement): Measurement {
    if a.Present? then a else b
  }

  /** JavaScript's `x > t` on a number that may be NaN (`None`): false for NaN. */
  predicate Exceeds(x: Option<real>, t: real) {
    x.Some? && x.value > t
  }

  /**
   * `round` without its decimal rounding: the sentinel and a missing reading
   * both become 0, every other reading is kept.
   */
  function Round(m: Measurement): (r: real)
    ensures r != Sentinel
    ensures m.Present? && m.value != Sentinel ==> r == m.value
    ensures !m.Present? || m.value == Sentinel ==> r == 0.0
  {
    if m == Present(Sentinel) || m == Absent then 0.0 else m.value
  }

  /**
   * `round(x * f)`: a missing reading makes the product NaN, which `round`
   * passes through and JSON sends as `null` (`None`); a present product is
   * rounded as any reading.
   */
  function RoundTimes(m: Measurement, f: real): (r: Option<real>)
    ensures r.None? <==> !m.Present?
    ensures m.Present? ==> r.value != Sentinel
    ensures m.Present? && m.value * f != Sentinel ==> r.value == m.value * f
  {
    if m.Present? then Some(Round(Present(m.value * f))) else None
  }

  // ---------------------------------------------------------------------------
  // Rain code and condition ladders

  /** The WMO-style weather code for a day's precipitation (mm). */
  function RainToCode(rain: Measurement): (code: int)
    ensures code in {0, 51, 61, 63, 65}
    ensures code == 65 <==> Above(rain, 20.0)
    ensures code == 63 <==> Above(rain, 5.0) && !Above(rain, 20.0)
    ensures code == 61 <==> Above(rain, 1.0) && !Above(rain, 5.0)
    ensures code == 51 <==> Above(rain, 0.1) && !Above(rain, 1.0)
    ensures code == 0 <==> !Above(rain, 0.1)
  {
    if Above(rain, 20.0) then 65
    else if Above(rain, 5.0) then 63
    else if Above(rain, 1.0) then 61
    else if Above(rain, 0.1) then 51
    else 0
  }

  /** More rain never gives a lower code. */
  lemma RainToCodeMonotone(a: real, b: real)
    requires a <= b
    ensures RainToCode(Present(a)) <= RainToCode(Present(b))
  {
  }

  const RainConditions: set<string> := {"Heavy rain", "Moderate rain", "Light rain", "Light drizzle"}
  const DryConditions: set<string> := {"Overcast", "Partly cloudy", "Mainly clear", "Clear sky"}

  /** The current-condition text from the latest day's rain and humidity. */
  function Condition(rain: Measurement, humidity: Measurement): (c: string)
    ensures Above(rain, 0.1) ==> c in RainConditions
    ensures !Above(rain, 0.1) ==> c in DryConditions
    ensures c == "Heavy rain" <==> Above(rain, 10.0)
    ensures c == "Moderate rain" <==> Above(rain, 5.0) && !Above(rain, 10.0)
    ensures c == "Light rain" <==> Above(rain, 1.0) && !Above(rain, 5.0)
    ensures c == "Light drizzle" <==> Above(rain, 0.1) && !Above(rain, 1.0)
    ensures c == "Overcast" <==> !Above(rain, 0.1) && Above(humidity, 90.0)
    ensures c == "Partly cloudy" <==> !Above(rain, 0.1) && Above(humidity, 70.0) && !Above(humidity, 90.0)
    ensures c == "Mainly clear" <==> !Above(rain, 0.1) && Above(humidity, 50.0) && !Above(humidity, 70.0)
    ensures c == "Clear sky" <==> !Above(rain, 0.1) && !Above(humidity, 50.0)
  {
    if Above(rain, 10.0) then "Heavy rain"
    else if Above(rain, 5.0) then "Moderate rain"
    else if Above(rain, 1.0) then "Light rain"
    else if Above(rain, 0.1) then "Light drizzle"
    else if Above(humidity, 90.0) then "Overcast"
    else if Above(humidity, 70.0) then "Partly cloudy"
    else if Above(humidity, 50.0) then "Mainly clear"
    else "Clear sky"
  }

  /** Rain above 0.1 alone decides the condition: humidity is not consulted. */
  lemma ConditionIgnoresHumidityInRain(rain: Measurement, h1: Measurement, h2: Measurement)
    requires Above(rain, 0.1)
    ensures Condition(rain, h1) == Condition(rain, h2)
  {
  }

  /** Without such rain, only humidity matters. */
  lemma ConditionIgnoresDryRain(r1: Measurement, r2: Measurement, humidity: Measurement)
    requires !Above(r1, 0.1) && !Above(r2, 0.1)
    ensures Condition(r1, humidity) == Condition(r2, humidity)
  {
  }

  // ---------------------------------------------------------------------------
  // Date keys

  /**
   * Lexicographic order by character value. `Array.prototype.sort` compares
   * UTF-16 code units; the two orders agree on the digit-only date keys.
   */
  predicate StrLe(a: string, b: string) {
    if a == [] then true
    else if b == [] then false
    else a[0] < b[0] || (a[0] == b[0] && StrLe(a[1..], b[1..]))
  }

  lemma {:induction false} StrLeTotal(a: string, b: string)
    ensures StrLe(a, b) || StrLe(b, a)
  {
    if a != [] && b != [] && a[0] == b[0] {
      StrLeTotal(a[1..], b[1..]);
    }
  }

  lemma {:induction false} StrLeTrans(a: string, b: string, c: string)
    requires StrLe(a, b) && StrLe(b, c)
    ensures StrLe(a, c)
  {
    if a != [] && b != [] && c != [] && a[0] == b[0] && b[0] == c[0] {
      StrLeTrans(a[1..], b[1..], c[1..]);
    }
  }

  predicate Sorted(s: seq<string>) {
    forall i, j :: 0 <= i < j < |s| ==> StrLe(s[i], s[j])
  }

  function Insert(x: string, s: seq<string>): (r: seq<string>)
    requires Sorted(s)
    ensures Sorted(r)
    ensures multiset(r) == multiset(s) + multiset{x}
  {
    if s == [] then [x]
    else if StrLe(x, s[0]) then
      assert forall j :: 0 <= j < |s| ==> StrLe(x, s[j]) by {
        forall j | 0 <= j < |s| ensures StrLe(x, s[j]) {
          if j > 0 { StrLeTrans(x, s[0], s[j]); }
        }
      }
      [x] + s
    else
      var rest := Insert(x, s[1..]);
      assert s == [s[0]] + s[1..];
      assert forall j :: 0 <= j < |rest| ==> StrLe(s[0], rest[j]) by {
        forall j | 0 <= j < |rest| ensures StrLe(s[0], rest[j]) {
          assert rest[j] in multiset(rest);
          if rest[j] == x {
            StrLeTotal(x, s[0]);
          } else {
            assert rest[j] in multiset(s[1..]);
            var k :| 0 <= k < |s[1..]| && s[1..][k] == rest[j];
            assert s[k + 1] == rest[j];
          }
        }
      }
      [s[0]] + rest
  }

  /** `keys.sort()`: the same keys in ascending order. */
  function SortKeys(keys: seq<string>): (r: seq<string>)
    ensures Sorted(r)
    ensures multiset(r) == multiset(keys)
  {
    if keys == [] then []
    else
      assert keys == [keys[0]] + keys[1..];
      Insert(keys[0], SortKeys(keys[1..]))
  }

  lemma {:induction false} SubsequenceElements(a: seq<string>, b: seq<string>)
    requires SubsequenceOf(a, b)
    ensures forall i :: 0 <= i < |a| ==> a[i] in b
  {
    if a != [] {
      if a[0] == b[0] && SubsequenceOf(a[1..], b[1..]) {
        SubsequenceElements(a[1..], b[1..]);
        assert forall i :: 1 <= i < |a| ==> a[i] == a[1..][i - 1];
      } else {
        SubsequenceElements(a, b[1..]);
      }
    }
  }

  lemma {:induction false} SubsequenceSorted(a: seq<string>, b: seq<string>)
    requires SubsequenceOf(a, b) && Sorted(b)
    ensures Sorted(a)
  {
    if a != [] {
      assert Sorted(b[1..]);
      if a[0] == b[0] && SubsequenceOf(a[1..], b[1..]) {
        SubsequenceSorted(a[1..], b[1..]);
        SubsequenceElements(a[1..], b[1..]);
        forall i, j | 0 <= i < j < |a| ensures StrLe(a[i], a[j]) {
          if i > 0 {
            assert a[i] == a[1..][i - 1] && a[j] == a[1..][j - 1];
          } else {
            assert a[j] == a[1..][j - 1];
            var k :| 0 <= k < |b[1..]| && b[1..][k] == a[j];
            assert b[k + 1] == a[j];
          }
        }
      } else {
        SubsequenceSorted(a, b[1..]);
      }
    }
  }

  /** A date counts when neither T2M nor T2M_MAX holds the sentinel for it. */
  predicate IsValidDate(p: PowerData, d: string) {
    Lookup(p.t2m, d) != Present(Sentinel) && Lookup(p.t2mMax, d) != Present(Sentinel)
  }

  /** The sorted T2M keys whose T2M and T2M_MAX readings are not the sentinel. */
  function ValidDates(p: PowerData): (r: seq<string>)
    ensures forall i :: 0 <= i < |r| ==> r[i] in p.keys && IsValidDate(p, r[i])
    ensures forall d :: d in p.keys && IsValidDate(p, d) ==> d in r
    ensures r == [] <==> forall d :: d in p.keys ==> !IsValidDate(p, d)
    ensures SubsequenceOf(r, SortKeys(p.keys))
  {
    var sorted := SortKeys(p.keys);
    var r := Filter(sorted, d => IsValidDate(p, d));
    assert forall d :: d in p.keys <==> d in multiset(sorted);
    assert r != [] ==> r[0] in sorted && IsValidDate(p, r[0]);
    r
  }

  /** The valid dates are in ascending order. */
  lemma ValidDatesSorted(p: PowerData)
    ensures Sorted(ValidDates(p))
  {
    var sorted := SortKeys(p.keys);
    SubsequenceSorted(ValidDates(p), sorted);
  }

  /** `dates.slice(-7)`: the last seven dates, or all of them when there are fewer. */
  function RecentDates(dates: seq<string>): (r: seq<string>)
    ensures |r| == if |dates| < 7 then |dates| else 7
    ensures r == dates[|dates| - |r|..]
  {
    if |dates| <= 7 then dates else dates[|dates| - 7..]
  }

  /** The ISO date of a YYYYMMDD key: a dash after the fourth and after the sixth character. */
  function Dashed(key: string): string
  {
    Slice(key, 0, 4) + "-" + Slice(key, 4, 6) + "-" + Slice(key, 6, 8)
  }

  /** An 8-character key gets dashes at positions 4 and 7, its digits kept in place. */
  lemma DashedShape(key: string)
    requires |key| == 8
    ensures var r := Dashed(key);
            && |r| == 10 && r[4] == '-' && r[7] == '-'
            && r[..4] == key[..4] && r[5..7] == key[4..6] && r[8..] == key[6..]
  {
  }

  /** `.replace(/-/g, '')`. */
  function StripDashes(s: string): (r: string)
    ensures '-' !in r
    ensures |r| <= |s|
  {
    if s == [] then ""
    else if s[0] == '-' then StripDashes(s[1..])
    else [s[0]] + StripDashes(s[1..])
  }

  lemma {:induction false} StripDashesAppend(a: string, b: string)
    ensures StripDashes(a + b) == StripDashes(a) + StripDashes(b)
  {
    if a == [] {
      assert a + b == b;
    } else {
      assert (a + b)[0] == a[0];
      assert (a + b)[1..] == a[1..] + b;
      StripDashesAppend(a[1..], b);
    }
  }

  lemma {:induction false} StripDashesNone(s: string)
    requires '-' !in s
    ensures StripDashes(s) == s
  {
    if s != [] {
      StripDashesNone(s[1..]);
    }
  }

  /** `fmt`: the first ten characters of an ISO timestamp without dashes. */
  function Fmt(iso: string): (r: string)
    ensures '-' !in r
    ensures |r| <= 10
  {
    StripDashes(Slice(iso, 0, 10))
  }

  /** Removing dashes around one dash removes it and joins the two sides. */
  lemma StripAroundDash(x: string, y: string)
    ensures StripDashes(x + "-" + y) == StripDashes(x) + StripDashes(y)
  {
    StripDashesAppend(x + "-", y);
    StripDashesAppend(x, "-");
    assert StripDashes("-") == "" by {
      assert "-"[1..] == "";
    }
  }

  /** Removing the dashes from a forecast date gives back its key. */
  lemma {:induction false} FmtDashedRoundTrip(key: string)
    requires |key| == 8 && '-' !in key
    ensures Fmt(Dashed(key)) == key
    ensures StripDashes(Dashed(key)) == key
  {
    var a, b, c := key[..4], key[4..6], key[6..];
    assert Dashed(key) == (a + "-" + b) + "-" + c;
    StripAroundDash(a + "-" + b, c);
    StripAroundDash(a, b);
    StripDashesNone(a);
    StripDashesNone(b);
    StripDashesNone(c);
    assert a + b + c == key;
    assert Slice(Dashed(key), 0, 10) == Dashed(key);
  }

  // ---------------------------------------------------------------------------
  // Current conditions and forecast

  function CurrentOf(p: PowerData, latest: string): (c: Current)
    ensures c.condition == Condition(Lookup(p.precipitation, latest), Lookup(p.rh2m, latest))
    ensures c.temperature != Sentinel && c.humidity != Sentinel
    ensures c.windSpeed.None? <==> latest !in p.ws10m
    ensures c.windSpeed.Some? ==> c.windSpeed.value != Sentinel
  {
    Current(
      Round(Lookup(p.t2m, latest)),
      Round(Lookup(p.rh2m, latest)),
      RoundTimes(Lookup(p.ws10m, latest), 3.6),
      Round(Lookup(p.wd10m, latest)),
      Round(Lookup(p.uvIndex, latest)),
      Condition(Lookup(p.precipitation, latest), Lookup(p.rh2m, latest)))
  }

  /** The current readings are the latest day's, with the sentinel or a missing reading giving 0. */
  lemma CurrentReadings(p: PowerData, latest: string)
    ensures latest in p.t2m && p.t2m[latest] != Sentinel ==> CurrentOf(p, latest).temperature == p.t2m[latest]
    ensures !(latest in p.t2m && p.t2m[latest] != Sentinel) ==> CurrentOf(p, latest).temperature == 0.0
    ensures latest in p.rh2m && p.rh2m[latest] != Sentinel ==> CurrentOf(p, latest).humidity == p.rh2m[latest]
    ensures !(latest in p.rh2m && p.rh2m[latest] != Sentinel) ==> CurrentOf(p, latest).humidity == 0.0
    ensures latest in p.wd10m && p.wd10m[latest] != Sentinel ==> CurrentOf(p, latest).windDirection == p.wd10m[latest]
    ensures !(latest in p.wd10m && p.wd10m[latest] != Sentinel) ==> CurrentOf(p, latest).windDirection == 0.0
    ensures latest in p.uvIndex && p.uvIndex[latest] != Sentinel ==> CurrentOf(p, latest).uvIndex == p.uvIndex[latest]
    ensures !(latest in p.uvIndex && p.uvIndex[latest] != Sentinel) ==> CurrentOf(p, latest).uvIndex == 0.0
    ensures latest in p.ws10m && p.ws10m[latest] * 3.6 != Sentinel ==> CurrentOf(p, latest).windSpeed == Some(p.ws10m[latest] * 3.6)
  {
  }

  /** One forecast entry; wind is converted from m/s to km/h. */
  function DayOf(p: PowerData, date: string, isLast: bool): (f: ForecastDay)
    ensures f.date == Dashed(date)
    ensures f.day == Latest <==> isLast
    ensures f.weatherCode == RainToCode(Lookup(p.precipitation, date))
  {
    ForecastDay(
      Dashed(date),
      if isLast then Latest else Weekday(Dashed(date)),
      Round(Lookup(p.t2mMax, date)),
      Round(Lookup(p.t2mMin, date)),
      Round(Lookup(p.precipitation, date)),
      RainToCode(Lookup(p.precipitation, date)),
      RoundTimes(OrElse(Lookup(p.ws10mMax, date), Lookup(p.ws10m, date)), 3.6))
  }

  /**
   * A day's wind is WS10M_MAX, else WS10M, in km/h; it is `null` (NaN) when
   * both series lack the date.
   */
  lemma DayWindMax(p: PowerData, date: string, isLast: bool)
    ensures DayOf(p, date, isLast).windMax.None? <==> date !in p.ws10mMax && date !in p.ws10m
    ensures date in p.ws10mMax && p.ws10mMax[date] * 3.6 != Sentinel ==>
              DayOf(p, date, isLast).windMax == Some(p.ws10mMax[date] * 3.6)
    ensures date !in p.ws10mMax && date in p.ws10m && p.ws10m[date] * 3.6 != Sentinel ==>
              DayOf(p, date, isLast).windMax == Some(p.ws10m[date] * 3.6)
  {
  }

  /** A day's temperatures and rain are its readings, with the sentinel or a missing reading giving 0. */
  lemma DayReadings(p: PowerData, date: string, isLast: bool)
    ensures date in p.t2mMax && p.t2mMax[date] != Sentinel ==> DayOf(p, date, isLast).tempMax == p.t2mMax[date]
    ensures !(date in p.t2mMax && p.t2mMax[date] != Sentinel) ==> DayOf(p, date, isLast).tempMax == 0.0
    ensures date in p.t2mMin && p.t2mMin[date] != Sentinel ==> DayOf(p, date, isLast).tempMin == p.t2mMin[date]
    ensures !(date in p.t2mMin && p.t2mMin[date] != Sentinel) ==> DayOf(p, date, isLast).tempMin == 0.0
    ensures date in p.precipitation && p.precipitation[date] != Sentinel ==> DayOf(p, date, isLast).rain == p.precipitation[date]
    ensures !(date in p.precipitation && p.precipitation[date] != Sentinel) ==> DayOf(p, date, isLast).rain == 0.0
  {
  }

  /** A T2M_MAX reading above 40 raises the heat warning for its day. */
  lemma HotDayWarns(p: PowerData, date: string, isLast: bool)
    requires date in p.t2mMax && p.t2mMax[date] > 40.0
    ensures var d := DayOf(p, date, isLast);
            Alert(Warning, ExtremeHeat(d.day, p.t2mMax[date])) in DayAlerts(d)
  {
    DayReadings(p, date, isLast);
    DayAlertsSpec(DayOf(p, date, isLast));
  }

  /** `recentDates.map(...)`, oldest first, the last entry labelled `Latest`. */
  function ForecastInOrder(p: PowerData, recent: seq<string>): (f: seq<ForecastDay>)
    ensures |f| == |recent|
    ensures forall i :: 0 <= i < |f| ==> f[i].date == Dashed(recent[i])
    ensures forall i :: 0 <= i < |f| ==> (f[i].day == Latest <==> i == |recent| - 1)
    ensures forall i :: 0 <= i < |f| ==> f[i].weatherCode == RainToCode(Lookup(p.precipitation, recent[i]))
  {
    seq(|recent|, i requires 0 <= i < |recent| => DayOf(p, recent[i], i == |recent| - 1))
  }

  function Reversed<T>(s: seq<T>): (r: seq<T>)
    ensures |r| == |s|
    ensures forall i :: 0 <= i < |s| ==> r[i] == s[|s| - 1 - i]
  {
    seq(|s|, i requires 0 <= i < |s| => s[|s| - 1 - i])
  }

  /** `forecast.reverse()`. */
  method ReverseInPlace<T>(a: array<T>)
    modifies a
    ensures a[..] == Reversed(old(a[..]))
  {
    var lo, hi := 0, a.Length - 1;
    while lo < hi
      invariant 0 <= lo <= a.Length && hi == a.Length - 1 - lo
      invariant forall k :: 0 <= k < lo ==> a[k] == old(a[a.Length - 1 - k])
      invariant forall k :: hi < k < a.Length ==> a[k] == old(a[a.Length - 1 - k])
      invariant forall k :: lo <= k <= hi ==> a[k] == old(a[k])
    {
      a[lo], a[hi] := a[hi], a[lo];
      lo, hi := lo + 1, hi - 1;
    }
  }

  // ---------------------------------------------------------------------------
  // Alerts

  /** The alerts one day raises: at most one about rain, then heat, then wind. */
  function DayAlerts(d: ForecastDay): (a: seq<Alert>)
    ensures |a| <= 3
  {
    (if d.rain > 50.0 then [Alert(Warning, HeavyRainfall(d.day, d.rain))]
     else if d.rain > 20.0 then [Alert(Info, ModerateRain(d.day, d.rain))]
     else [])
    + (if d.tempMax > 40.0 then [Alert(Warning, ExtremeHeat(d.day, d.tempMax))] else [])
    + (if Exceeds(d.windMax, 40.0) then [Alert(Warning, HighWinds(d.day, d.windMax.value))] else [])
  }

  /**
   * Which alerts a day raises: a rain warning above 50 mm, otherwise a rain
   * notice above 20 mm (never both), a heat warning above 40 °C and a wind
   * warning above 40 km/h.
   */
  lemma DayAlertsSpec(d: ForecastDay)
    ensures Alert(Warning, HeavyRainfall(d.day, d.rain)) in DayAlerts(d) <==> d.rain > 50.0
    ensures Alert(Info, ModerateRain(d.day, d.rain)) in DayAlerts(d) <==> 20.0 < d.rain <= 50.0
    ensures Alert(Warning, ExtremeHeat(d.day, d.tempMax)) in DayAlerts(d) <==> d.tempMax > 40.0
    ensures d.windMax.Some? ==> (Alert(Warning, HighWinds(d.day, d.windMax.value)) in DayAlerts(d) <==> d.windMax.value > 40.0)
    ensures d.windMax.None? ==> forall i :: 0 <= i < |DayAlerts(d)| ==> !DayAlerts(d)[i].text.HighWinds?
  {
  }

  /**
   * A day's alerts come in the order they are pushed: the one rain alert
   * first, then heat, then wind, each at most once.
   */
  lemma DayAlertsOrder(d: ForecastDay)
    ensures |DayAlerts(d)| ==
              (if d.rain > 20.0 then 1 else 0) + (if d.tempMax > 40.0 then 1 else 0)
              + (if Exceeds(d.windMax, 40.0) then 1 else 0)
    ensures d.rain > 50.0 ==> DayAlerts(d)[0] == Alert(Warning, HeavyRainfall(d.day, d.rain))
    ensures 20.0 < d.rain <= 50.0 ==> DayAlerts(d)[0] == Alert(Info, ModerateRain(d.day, d.rain))
    ensures d.tempMax > 40.0 ==>
              DayAlerts(d)[if d.rain > 20.0 then 1 else 0] == Alert(Warning, ExtremeHeat(d.day, d.tempMax))
    ensures Exceeds(d.windMax, 40.0) ==>
              DayAlerts(d)[|DayAlerts(d)| - 1] == Alert(Warning, HighWinds(d.day, d.windMax.value))
  {
  }

  /** No day raises a success alert. */
  lemma DayAlertsNeverSuccess(d: ForecastDay)
    ensures forall i :: 0 <= i < |DayAlerts(d)| ==> DayAlerts(d)[i].kind != AlertType.Success
  {
  }

  /** A day raises nothing exactly when it trips no threshold. */
  lemma DayAlertsNone(d: ForecastDay)
    ensures DayAlerts(d) == [] <==> !Eventful(d)
  {
  }

  /** A day that trips at least one threshold. */
  predicate Eventful(d: ForecastDay) {
    d.rain > 20.0 || d.tempMax > 40.0 || Exceeds(d.windMax, 40.0)
  }

  /** The alerts of every day, in forecast order. */
  function RuleAlerts(forecast: seq<ForecastDay>): seq<Alert>
  {
    if forecast == [] then []
    else RuleAlerts(forecast[..|forecast| - 1]) + DayAlerts(forecast[|forecast| - 1])
  }

  const FavorableAlert: Alert := Alert(AlertType.Success, Favorable)

  /** The alert list of the report: the rule alerts, or the single favourable one. */
  function Alerts(forecast: seq<ForecastDay>): seq<Alert>
  {
    var a := RuleAlerts(forecast);
    if a == [] then [FavorableAlert] else a
  }

  lemma RuleAlertsSnoc(f: seq<ForecastDay>, d: ForecastDay)
    ensures RuleAlerts(f + [d]) == RuleAlerts(f) + DayAlerts(d)
  {
    assert (f + [d])[..|f + [d]| - 1] == f;
  }

  lemma {:induction false} RuleAlertsAppend(f: seq<ForecastDay>, g: seq<ForecastDay>)
    ensures RuleAlerts(f + g) == RuleAlerts(f) + RuleAlerts(g)
  {
    if g == [] {
      assert f + g == f;
    } else {
      var init, last := g[..|g| - 1], g[|g| - 1];
      assert g == init + [last];
      assert f + g == (f + init) + [last];
      RuleAlertsAppend(f, init);
      RuleAlertsSnoc(f + init, last);
      RuleAlertsSnoc(init, last);
    }
  }

  /** Alerts come in forecast order: each day's alerts follow those of the days before it. */
  lemma AlertsInForecastOrder(f: seq<ForecastDay>, d: ForecastDay, g: seq<ForecastDay>)
    ensures RuleAlerts(f + [d] + g) == RuleAlerts(f) + DayAlerts(d) + RuleAlerts(g)
  {
    RuleAlertsAppend(f + [d], g);
    RuleAlertsSnoc(f, d);
  }

  lemma {:induction false} RuleAlertsNeverSuccess(f: seq<ForecastDay>)
    ensures forall i :: 0 <= i < |RuleAlerts(f)| ==> RuleAlerts(f)[i].kind != AlertType.Success
  {
    if f != [] {
      RuleAlertsNeverSuccess(f[..|f| - 1]);
      DayAlertsNeverSuccess(f[|f| - 1]);
    }
  }

  lemma {:induction false} RuleAlertsEmpty(f: seq<ForecastDay>)
    ensures RuleAlerts(f) == [] <==> forall i :: 0 <= i < |f| ==> !Eventful(f[i])
  {
    if f != [] {
      var init, last := f[..|f| - 1], f[|f| - 1];
      RuleAlertsEmpty(init);
      DayAlertsNone(last);
      assert RuleAlerts(f) == RuleAlerts(init) + DayAlerts(last);
      assert forall i :: 0 <= i < |init| ==> init[i] == f[i];
    }
  }

  /** The alert list is never empty. */
  lemma AlertsNonEmpty(f: seq<ForecastDay>)
    ensures |Alerts(f)| >= 1
  {
  }

  /**
   * The favourable alert appears exactly when no threshold fired, and then it is
   * the only alert: a success alert never sits beside another one.
   */
  lemma AlertsSuccessExclusive(f: seq<ForecastDay>)
    ensures (exists i :: 0 <= i < |Alerts(f)| && Alerts(f)[i].kind == AlertType.Success)
            <==> Alerts(f) == [FavorableAlert]
    ensures Alerts(f) == [FavorableAlert] <==> forall i :: 0 <= i < |f| ==> !Eventful(f[i])
  {
    RuleAlertsNeverSuccess(f);
    RuleAlertsEmpty(f);
    if RuleAlerts(f) == [] {
      assert Alerts(f)[0].kind == AlertType.Success;
    } else {
      assert RuleAlerts(f)[0].kind != AlertType.Success;
    }
  }

  /** A day with 60 mm of rain raises a heavy-rainfall warning naming that day. */
  lemma HeavyRainWarnsForItsDay(f: seq<ForecastDay>, i: nat)
    requires i < |f| && f[i].rain == 60.0
    ensures Alert(Warning, HeavyRainfall(f[i].day, 60.0)) in Alerts(f)
  {
    assert f == f[..i] + [f[i]] + f[i + 1..];
    AlertsInForecastOrder(f[..i], f[i], f[i + 1..]);
    DayAlertsSpec(f[i]);
  }

  /** The `forEach` over the forecast that fills `alerts`, then the favourable fallback. */
  method GenerateAlerts(forecast: array<ForecastDay>) returns (alerts: seq<Alert>)
    ensures alerts == Alerts(forecast[..])
  {
    alerts := [];
    for i := 0 to forecast.Length
      invariant alerts == RuleAlerts(forecast[..i])
    {
      var day := forecast[i];
      assert forecast[..i + 1][..i] == forecast[..i];
      if day.rain > 50.0 {
        alerts := alerts + [Alert(Warning, HeavyRainfall(day.day, day.rain))];
      } else if day.rain > 20.0 {
        alerts := alerts + [Alert(Info, ModerateRain(day.day, day.rain))];
      }
      if day.tempMax > 40.0 {
        alerts := alerts + [Alert(Warning, ExtremeHeat(day.day, day.tempMax))];
      }
      if day.windMax.Some? && day.windMax.value > 40.0 {
        alerts := alerts + [Alert(Warning, HighWinds(day.day, day.windMax.value))];
      }
    }
    assert forecast[..forecast.Length] == forecast[..];
    if |alerts| == 0 {
      alerts := alerts + [FavorableAlert];
    }
  }

  // ---------------------------------------------------------------------------
  // The whole request

  const DefaultLatitude: real := 28.6139
  const DefaultLongitude: real := 77.2090
  const SourceName: string := "NASA POWER (Satellite)"

  function ErrorMessage(e: WeatherError): string
    requires e.InvalidResponse? || e.NoValidData?
  {
    match e
    case InvalidResponse => "Invalid response from NASA POWER API"
    case NoValidData => "No valid data from NASA POWER for this period"
  }

  /**
   * The series as the computation reads them. WD10M and UV are read through
   * `?.` with a `?? 0` default, so a missing one acts as an empty series; the
   * others are read only once `ReadsSucceed` holds.
   */
  function Complete(raw: Parameters): PowerData
  {
    PowerData(raw.keys,
      raw.t2m.GetOr(map[]), raw.t2mMax.GetOr(map[]), raw.t2mMin.GetOr(map[]),
      raw.rh2m.GetOr(map[]), raw.ws10m.GetOr(map[]), raw.ws10mMax.GetOr(map[]),
      raw.wd10m.GetOr(map[]), raw.precipitation.GetOr(map[]), raw.uvIndex.GetOr(map[]))
  }

  /** A complete record received with every series present. */
  function Received(p: PowerData): (raw: Parameters)
    ensures Complete(raw) == p
  {
    Parameters(p.keys, Some(p.t2m), Some(p.t2mMax), Some(p.t2mMin), Some(p.rh2m),
      Some(p.ws10m), Some(p.ws10mMax), Some(p.wd10m), Some(p.precipitation), Some(p.uvIndex))
  }

  /**
   * The date filter reads T2M_MAX for every key whose T2M reading is not the
   * sentinel (`&&` skips it otherwise).
   */
  predicate FilterReadsMax(raw: Parameters)
    requires raw.t2m.Some?
  {
    exists d :: d in raw.keys && Lookup(raw.t2m.value, d) != Present(Sentinel)
  }

  /** The series read for the current conditions and the forecast, all present. */
  predicate ReadsSucceed(raw: Parameters)
  {
    raw.t2mMin.Some? && raw.rh2m.Some? && raw.ws10m.Some? && raw.ws10mMax.Some? && raw.precipitation.Some?
  }

  /** Every series read without `?.` is present. */
  predicate HasRequiredSeries(raw: Parameters)
  {
    raw.t2m.Some? && raw.t2mMax.Some? && ReadsSucceed(raw)
  }

  /** What the function answers for a request and the upstream response. */
  function WeatherReport(req: WeatherRequest, resp: PowerResponse): Result<Report, WeatherError>
  {
    match resp
    case HttpError(status) => Failure(ApiFailed(status))
    case Body(None) => Failure(InvalidResponse)
    case Body(Some(raw)) =>
      if raw.t2m.None? then Failure(MissingSeries)
      else if raw.t2mMax.None? && FilterReadsMax(raw) then Failure(MissingSeries)
      else
        var p := Complete(raw);
        var valid := ValidDates(p);
        if |valid| == 0 then Failure(NoValidData)
        else if !ReadsSucceed(raw) then Failure(MissingSeries)
        else
          var recent := RecentDates(valid);
          var forecast := Forecast(p);
          Result.Success(Report(
            CurrentOf(p, recent[|recent| - 1]),
            forecast,
            Alerts(forecast),
            req.latitude.GetOr(DefaultLatitude),
            req.longitude.GetOr(DefaultLongitude),
            SourceName))
  }

  /** Without a valid date the function fails before building any forecast. */
  lemma NoValidDataFails(req: WeatherRequest, p: PowerData)
    requires forall d :: d in p.keys ==> !IsValidDate(p, d)
    ensures WeatherReport(req, Body(Some(Received(p)))) == Failure(NoValidData)
  {
  }

  /**
   * A body succeeds exactly when every series read without `?.` is present and
   * some date is valid.
   */
  lemma ReportSucceeds(req: WeatherRequest, raw: Parameters)
    ensures WeatherReport(req, Body(Some(raw))).Success?
            <==> HasRequiredSeries(raw) && ValidDates(Complete(raw)) != []
  {
    if raw.t2m.Some? && raw.t2mMax.None? && ValidDates(Complete(raw)) != [] {
      var d := ValidDates(Complete(raw))[0];
      assert d in raw.keys && Lookup(raw.t2m.value, d) != Present(Sentinel);
    }
  }

  /** A missing required series makes the function fail once a date is valid. */
  lemma MissingSeriesFails(req: WeatherRequest, raw: Parameters)
    requires ValidDates(Complete(raw)) != [] && !HasRequiredSeries(raw)
    ensures WeatherReport(req, Body(Some(raw))) == Failure(MissingSeries)
  {
    if raw.t2m.Some? && raw.t2mMax.None? {
      var d := ValidDates(Complete(raw))[0];
      assert d in raw.keys && Lookup(raw.t2m.value, d) != Present(Sentinel);
    }
  }

  /** The answer depends on the series only through their presence checks and `Complete`. */
  lemma SameReadsSameReport(req: WeatherRequest, a: Parameters, b: Parameters)
    requires a.keys == b.keys && a.t2m == b.t2m && a.t2mMax == b.t2mMax
    requires ReadsSucceed(a) == ReadsSucceed(b) && Complete(a) == Complete(b)
    ensures WeatherReport(req, Body(Some(a))) == WeatherReport(req, Body(Some(b)))
  {
    if a.t2m.Some? {
      assert FilterReadsMax(a) == FilterReadsMax(b);
    }
  }

  /** A missing WD10M or UV series reads as an empty one. */
  lemma OptionalSeriesDefault(req: WeatherRequest, raw: Parameters)
    ensures WeatherReport(req, Body(Some(raw.(wd10m := None)))) == WeatherReport(req, Body(Some(raw.(wd10m := Some(map[])))))
    ensures WeatherReport(req, Body(Some(raw.(uvIndex := None)))) == WeatherReport(req, Body(Some(raw.(uvIndex := Some(map[])))))
  {
    SameReadsSameReport(req, raw.(wd10m := None), raw.(wd10m := Some(map[])));
    SameReadsSameReport(req, raw.(uvIndex := None), raw.(uvIndex := Some(map[])));
  }

  /** The forecast built from a list of valid dates: the recent ones, most recent first. */
  function ForecastFrom(p: PowerData, valid: seq<string>): seq<ForecastDay>
  {
    Reversed(ForecastInOrder(p, RecentDates(valid)))
  }

  /** The forecast of the report. */
  function Forecast(p: PowerData): seq<ForecastDay>
  {
    ForecastFrom(p, ValidDates(p))
  }

  /** Entry i carries the date i places from the end of `recent`; only entry 0 is `Latest`. */
  lemma ReversedForecastAt(p: PowerData, recent: seq<string>, i: nat)
    requires i < |recent|
    ensures var f := Reversed(ForecastInOrder(p, recent));
            && f[i].date == Dashed(recent[|recent| - 1 - i])
            && (f[i].day == Latest <==> i == 0)
  {
    var inOrder := ForecastInOrder(p, recent);
    var j := |recent| - 1 - i;
    var day := Reversed(inOrder)[i];
    assert day == inOrder[j];
    assert day.date == Dashed(recent[j]) by {
      assert inOrder[j].date == Dashed(recent[j]);
    }
    assert day.day == Latest <==> i == 0 by {
      assert inOrder[j].day == Latest <==> j == |recent| - 1;
    }
  }

  /** Entry i of the forecast carries the valid date i places from the end. */
  lemma ForecastEntryAt(p: PowerData, valid: seq<string>, i: nat)
    requires i < |RecentDates(valid)|
    ensures |ForecastFrom(p, valid)| == |RecentDates(valid)|
    ensures ForecastFrom(p, valid)[i].date == Dashed(valid[|valid| - 1 - i])
    ensures ForecastFrom(p, valid)[i].day == Latest <==> i == 0
  {
    var recent := RecentDates(valid);
    var f := Reversed(ForecastInOrder(p, recent));
    assert ForecastFrom(p, valid) == f;
    ReversedForecastAt(p, recent, i);
    var j := |recent| - 1 - i;
    assert recent[j] == valid[|valid| - 1 - i] by {
      assert recent == valid[|valid| - |recent|..];
    }
    assert f[i].date == Dashed(valid[|valid| - 1 - i]);
  }

  /** Entry i is the valid date i places from the end; only entry 0 is `Latest`. */
  lemma ForecastEntries(p: PowerData, valid: seq<string>)
    requires valid != []
    ensures var f := ForecastFrom(p, valid);
            && |f| == (if |valid| < 7 then |valid| else 7)
            && (forall i :: 0 <= i < |f| ==> f[i].date == Dashed(valid[|valid| - 1 - i]))
            && (forall i :: 0 <= i < |f| ==> (f[i].day == Latest <==> i == 0))
  {
    var f := ForecastFrom(p, valid);
    assert |f| == |RecentDates(valid)|;
    forall i | 0 <= i < |f|
      ensures f[i].date == Dashed(valid[|valid| - 1 - i])
      ensures f[i].day == Latest <==> i == 0
    {
      ForecastEntryAt(p, valid, i);
    }
  }

  /** The last valid date is the greatest one. */
  lemma {:induction false} LatestIsGreatest(valid: seq<string>)
    requires Sorted(valid) && |valid| > 0
    ensures forall d :: d in valid ==> StrLe(d, valid[|valid| - 1])
  {
    forall d | d in valid ensures StrLe(d, valid[|valid| - 1]) {
      var k :| 0 <= k < |valid| && valid[k] == d;
      if k == |valid| - 1 {
        StrLeTotal(d, d);
      }
    }
  }

  /** With a valid date the function succeeds, and its forecast is `Forecast(p)`. */
  lemma ReportForecast(req: WeatherRequest, p: PowerData)
    requires ValidDates(p) != []
    ensures WeatherReport(req, Body(Some(Received(p)))).Success?
    ensures WeatherReport(req, Body(Some(Received(p)))).value.forecast == Forecast(p)
    ensures WeatherReport(req, Body(Some(Received(p)))).value.alerts == Alerts(Forecast(p))
  {
  }

  /**
   * The forecast holds min(7, |valid dates|) days, the most recent first: entry
   * i is the valid date i places from the end, and only entry 0 is `Latest`.
   */
  lemma ForecastShape(p: PowerData)
    requires ValidDates(p) != []
    ensures var valid := ValidDates(p);
            && |Forecast(p)| == (if |valid| < 7 then |valid| else 7)
            && (forall i :: 0 <= i < |Forecast(p)| ==> Forecast(p)[i].date == Dashed(valid[|valid| - 1 - i]))
            && Forecast(p)[0].day == Latest
            && (forall i :: 0 < i < |Forecast(p)| ==> Forecast(p)[i].day != Latest)
  {
    ForecastEntries(p, ValidDates(p));
  }

  /** The first forecast entry is the greatest valid date. */
  lemma ForecastStartsWithLatest(p: PowerData)
    requires ValidDates(p) != []
    ensures var valid := ValidDates(p);
            && |Forecast(p)| > 0
            && Forecast(p)[0].date == Dashed(valid[|valid| - 1])
            && forall d :: d in valid ==> StrLe(d, valid[|valid| - 1])
  {
    ForecastShape(p);
    ValidDatesSorted(p);
    LatestIsGreatest(ValidDates(p));
  }

  /** `recentDates.map(...)` into a fresh array, then `forecast.reverse()`. */
  method BuildForecast(p: PowerData, recent: seq<string>) returns (forecast: array<ForecastDay>)
    ensures fresh(forecast)
    ensures forecast[..] == Reversed(ForecastInOrder(p, recent))
  {
    var days := ForecastInOrder(p, recent);
    forecast := new ForecastDay[|days|](i requires 0 <= i < |days| => days[i]);
    assert forecast[..] == days;
    ReverseInPlace(forecast);
  }

  /** The function itself: the date pipeline, the in-place reverse and the alert loop. */
  method GetWeather(req: WeatherRequest, resp: PowerResponse) returns (r: Result<Report, WeatherError>)
    ensures r == WeatherReport(req, resp)
  {
    match resp
    case HttpError(status) =>
      r := Failure(ApiFailed(status));
    case Body(None) =>
      r := Failure(InvalidResponse);
    case Body(Some(raw)) =>
      if raw.t2m.None? {
        r := Failure(MissingSeries);
        return;
      }
      if raw.t2mMax.None? && FilterReadsMax(raw) {
        r := Failure(MissingSeries);
        return;
      }
      var p := Complete(raw);
      var valid := ValidDates(p);
      if |valid| == 0 {
        r := Failure(NoValidData);
      } else if !ReadsSucceed(raw) {
        r := Failure(MissingSeries);
      } else {
        var recent := RecentDates(valid);
        var current := CurrentOf(p, recent[|recent| - 1]);
        var forecast := BuildForecast(p, recent);
        var alerts := GenerateAlerts(forecast);
        r := Result.Success(Report(current, forecast[..], alerts,
                                   req.latitude.GetOr(DefaultLatitude), req.longitude.GetOr(DefaultLongitude),
                                   SourceName));
      }
  }
}
