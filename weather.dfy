/**
 * The weather tool's text helpers: wind force from wind speed, wind
 * direction and weather description translation, the alert line, and the
 * reply text of the `getWeather` handler.  The wttr.in request is an
 * oracle that yields already-parsed observations.
 */
module Weather {
  import opened Results
  import opened JsValues
  import opened Text

  // ------------------------------------------------------------ wind force

  /** The lower bound (km/h) of wind force 1, 2, ..., 12. */
  const WIND_BOUNDS: seq<real> := [1.0, 6.0, 12.0, 20.0, 29.0, 39.0, 50.0, 62.0, 75.0, 89.0, 103.0, 117.0]

  const LEVEL_NAMES: seq<string> :=
    ["0级", "1级", "2级", "3级", "4级", "5级", "6级", "7级", "8级", "9级", "10级", "11级", "12级"]

  /**
   * The wind force of `parseFloat(kmh)`: the first bound the speed is below.
   * NaN is below none of them, so it counts as force 12.
   */
  function WindForce(speed: Parsed<real>): (level: nat)
    ensures level <= 12
    ensures level < 12 ==> speed.Finite? && speed.value < WIND_BOUNDS[level]
    ensures level > 0 && speed.Finite? ==> speed.value >= WIND_BOUNDS[level - 1]
  {
    if speed.NaN? then 12
    else
      var s := speed.value;
      if s < 1.0 then 0
      else if s < 6.0 then 1
      else if s < 12.0 then 2
      else if s < 20.0 then 3
      else if s < 29.0 then 4
      else if s < 39.0 then 5
      else if s < 50.0 then 6
      else if s < 62.0 then 7
      else if s < 75.0 then 8
      else if s < 89.0 then 9
      else if s < 103.0 then 10
      else if s < 117.0 then 11
      else 12
  }

  /** `convertWindLevel(kmh)`, given `parseFloat(kmh)`. */
  function ConvertWindLevel(speed: Parsed<real>): (r: string)
    ensures r in LEVEL_NAMES
    ensures r == "0级" <==> speed.Finite? && speed.value < 1.0
    ensures r == "12级" <==> speed.NaN? || speed.value >= 117.0
  {
    LEVEL_NAMES[WindForce(speed)]
  }

  /** A faster wind never gets a lower force. */
  lemma {:induction false} WindForceMonotone(a: real, b: real)
    requires a <= b
    ensures WindForce(Finite(a)) <= WindForce(Finite(b))
  {
  }

  // -------------------------------------------------------- wind direction

  const WIND_DIRECTIONS: map<string, string> := map[
    "N" := "北风", "NNE" := "东北偏北风", "NE" := "东北风", "ENE" := "东北偏东风",
    "E" := "东风", "ESE" := "东南偏东风", "SE" := "东南风", "SSE" := "东南偏南风",
    "S" := "南风", "SSW" := "西南偏南风", "SW" := "西南风", "WSW" := "西南偏西风",
    "W" := "西风", "WNW" := "西北偏西风", "NW" := "西北风", "NNW" := "西北偏北风",
    "Variable" := "风向不定", "VRB" := "风向不定"]

  /** The sixteen compass points wttr.in reports, clockwise from north. */
  const COMPASS_POINTS: seq<string> :=
    ["N", "NNE", "NE", "ENE", "E", "ESE", "SE", "SSE", "S", "SSW", "SW", "WSW", "W", "WNW", "NW", "NNW"]

  /** `translateWindDir(dir)`: `windDirMap[dir] || dir`. */
  function TranslateWindDir(dir: string): (r: string)
    ensures dir in WIND_DIRECTIONS ==> r == WIND_DIRECTIONS[dir]
    ensures r == dir <==> dir !in WIND_DIRECTIONS
  {
    if dir in WIND_DIRECTIONS && WIND_DIRECTIONS[dir] != "" then WIND_DIRECTIONS[dir] else dir
  }

  /** The table knows exactly the sixteen compass points plus the two spellings of a variable wind. */
  lemma WindDirectionsCoverCompass()
    ensures WIND_DIRECTIONS.Keys == (set p | p in COMPASS_POINTS) + {"Variable", "VRB"}
    ensures TranslateWindDir("Variable") == TranslateWindDir("VRB") == "风向不定"
  {
  }

  // ---------------------------------------------------- weather description

  /** One test of `translateWeatherDesc`, in the order they are tried. */
  datatype Rule =
    | Exact(phrases: seq<string>, name: string)     // `lowerDesc === p` for one of the phrases
    | Mentions(words: seq<string>, name: string)    // `lowerDesc.includes(w)` for one of the words

  const DESCRIPTION_RULES: seq<Rule> := [
    Exact(["sunny", "clear"], "晴"),
    Exact(["partly cloudy"], "多云"),
    Exact(["cloudy", "overcast"], "阴"),
    Exact(["light rain"], "小雨"),
    Exact(["moderate rain"], "中雨"),
    Exact(["heavy rain"], "大雨"),
    Exact(["shower"], "阵雨"),
    Exact(["rain"], "雨"),
    Exact(["drizzle"], "毛毛雨"),
    Exact(["freezing drizzle"], "冻雨"),
    Mentions(["patchy freezing drizzle"], "局部冻雨"),
    Exact(["light snow"], "小雪"),
    Exact(["moderate snow"], "中雪"),
    Exact(["heavy snow"], "大雪"),
    Exact(["snow"], "雪"),
    Exact(["blizzard"], "暴风雪"),
    Exact(["sleet"], "雨夹雪"),
    Exact(["mist"], "薄雾"),
    Exact(["fog"], "雾"),
    Exact(["haze"], "霾"),
    Exact(["smoke"], "烟雾"),
    Mentions(["thund", "thunder"], "雷"),
    Mentions(["cloudy"], "多云"),
    Mentions(["rain"], "雨"),
    Mentions(["snow"], "雪"),
    Mentions(["fog", "mist"], "雾")]

  predicate MentionsAny(text: string, words: seq<string>) {
    exists i :: 0 <= i < |words| && Contains(text, words[i])
  }

  predicate Matches(rule: Rule, text: string) {
    match rule
    case Exact(phrases, _) => text in phrases
    case Mentions(words, _) => MentionsAny(text, words)
  }

  /** The index of the first rule that matches, if any. */
  function FirstMatch(rules: seq<Rule>, text: string): (r: Option<nat>)
    ensures r.Some? ==> r.value < |rules| && Matches(rules[r.value], text)
    ensures r.Some? ==> forall j :: 0 <= j < r.value ==> !Matches(rules[j], text)
    ensures r.None? ==> forall j :: 0 <= j < |rules| ==> !Matches(rules[j], text)
  {
    if |rules| == 0 then None
    else if Matches(rules[0], text) then Some(0)
    else match FirstMatch(rules[1..], text)
      case None => None
      case Some(i) => Some(i + 1)
  }

  /** What the rules compare against: `desc.toLowerCase().trim()`. */
  function Normalized(desc: string): string {
    Trim(Lower(desc))
  }

  /** `translateWeatherDesc(desc)`. */
  function TranslateWeatherDesc(desc: string): (r: string)
    ensures FirstMatch(DESCRIPTION_RULES, Normalized(desc)).None? ==> r == desc
    ensures FirstMatch(DESCRIPTION_RULES, Normalized(desc)).Some? ==>
      r == DESCRIPTION_RULES[FirstMatch(DESCRIPTION_RULES, Normalized(desc)).value].name
  {
    match FirstMatch(DESCRIPTION_RULES, Normalized(desc))
    case None => desc
    case Some(i) => DESCRIPTION_RULES[i].name
  }

  /** A recognised description is translated the same whatever its case or surrounding white space. */
  lemma TranslationIgnoresCaseAndSpace(d1: string, d2: string)
    requires Normalized(d1) == Normalized(d2)
    requires FirstMatch(DESCRIPTION_RULES, Normalized(d1)).Some?
    ensures TranslateWeatherDesc(d1) == TranslateWeatherDesc(d2)
  {
  }

  lemma {:induction false} ContainsNoLonger(s: string, sub: string)
    requires Contains(s, sub)
    ensures |sub| <= |s|
  {
    if !StartsWith(s, sub) {
      ContainsNoLonger(s[1..], sub);
    }
  }

  /** The only substring rule among the first 21 is the `patchy freezing drizzle` one. */
  const PATCHY_RULE: nat := 10
  const FIRST_FUZZY_RULE: nat := 21

  /** The layout of the table: exact rules first (but one), then substring rules; no exact phrase is long. */
  lemma RuleLayout()
    ensures forall j :: 0 <= j < FIRST_FUZZY_RULE && j != PATCHY_RULE ==> DESCRIPTION_RULES[j].Exact?
    ensures DESCRIPTION_RULES[PATCHY_RULE] == Mentions(["patchy freezing drizzle"], "局部冻雨")
    ensures forall j :: FIRST_FUZZY_RULE <= j < |DESCRIPTION_RULES| ==> DESCRIPTION_RULES[j].Mentions?
    ensures forall j, k :: (0 <= j < |DESCRIPTION_RULES| && DESCRIPTION_RULES[j].Exact?
                             && 0 <= k < |DESCRIPTION_RULES[j].phrases|) ==> |DESCRIPTION_RULES[j].phrases[k]| <= 16
  {
  }

  /**
   * The exact comparisons come before the substring tests that would also
   * match their phrases: a description equal to an exact phrase is named by
   * the first exact rule that lists it (so "light rain" is 小雨, not 雨, and
   * "cloudy" is 阴, not 多云).
   */
  lemma ExactPhraseWins(i: nat, p: string)
    requires i < |DESCRIPTION_RULES| && DESCRIPTION_RULES[i].Exact? && p in DESCRIPTION_RULES[i].phrases
    ensures var m := FirstMatch(DESCRIPTION_RULES, p);
      m.Some? && m.value <= i && DESCRIPTION_RULES[m.value].Exact? && p in DESCRIPTION_RULES[m.value].phrases
  {
    var rules := DESCRIPTION_RULES;
    RuleLayout();
    assert Matches(rules[i], p);
    var m := FirstMatch(rules, p);
    assert m.Some? && m.value <= i;
    if Contains(p, "patchy freezing drizzle") {
      ContainsNoLonger(p, "patchy freezing drizzle");
    }
    assert !Matches(rules[PATCHY_RULE], p);
  }

  // ---------------------------------------------------------------- alerts

  /** The current conditions, with the numbers the alert code parses from them. */
  datatype Observation = Observation(
    tempC: string,                // `current.temp_C`
    humidity: string,
    windspeedKmph: string,
    winddir16Point: string,
    description: string,          // `current.weatherDesc[0].value`
    temp: Parsed<int>,            // `parseInt(current.temp_C)`
    windSpeed: Parsed<real>,      // `parseFloat(current.windspeedKmph)`
    visibility: Parsed<real>)     // `parseFloat(current.visibility)`

  /** Tomorrow's forecast entry (`data.weather[1]`). */
  datatype Forecast = Forecast(
    hourly: Option<seq<string>>,  // `weatherDesc[0].value` of each hourly entry; None when absent
    maxtempC: Option<string>,     // None when absent
    maxTemp: Parsed<int>)         // `parseInt(maxtempC)`

  datatype Alert = Heat | PoorVisibility | Gale | RainSoon | RainNow | Cooling(tomorrowMax: int)

  /** The position of each kind of alert in the alert line. */
  function Rank(a: Alert): nat {
    match a
    case Heat => 0
    case PoorVisibility => 1
    case Gale => 2
    case RainSoon => 3
    case RainNow => 3
    case Cooling(_) => 4
  }

  function AlertText(a: Alert): string {
    match a
    case Heat => "高温预警，避免长时间户外活动"
    case PoorVisibility => "能见度低，外出注意防护"
    case Gale => "大风预警，避免高空作业"
    case RainSoon => "未来3小时有降雨，建议带伞"
    case RainNow => "当前有降雨，减少外出"
    case Cooling(t) => "明日降温至" + IntToString(t) + "°C，注意保暖"
  }

  const RAIN_KEYWORDS: seq<string> := ["rain", "drizzle", "shower", "thund", "snow"]
  const HAZE_WORDS: seq<string> := ["霾", "雾", "fog", "mist"]

  predicate Hot(c: Observation) {
    c.temp.Finite? && c.temp.value > 35
  }

  predicate LowVisibility(c: Observation) {
    (c.visibility.Finite? && c.visibility.value < 5.0) || MentionsAny(Lower(c.description), HAZE_WORDS)
  }

  predicate Windy(c: Observation) {
    c.windSpeed.Finite? && c.windSpeed.value > 30.0
  }

  predicate RainingNow(c: Observation) {
    MentionsAny(Lower(c.description), RAIN_KEYWORDS)
  }

  /** `forecast.hourly.slice(0, 3)`, or nothing without a forecast. */
  function NextHours(forecast: Option<Forecast>): (r: seq<string>)
    ensures |r| <= 3
  {
    if forecast.Some? && forecast.value.hourly.Some? then
      var hours := forecast.value.hourly.value;
      if |hours| <= 3 then hours else hours[..3]
    else []
  }

  predicate RainExpected(forecast: Option<Forecast>) {
    exists i :: 0 <= i < |NextHours(forecast)| && MentionsAny(Lower(NextHours(forecast)[i]), RAIN_KEYWORDS)
  }

  /** Tomorrow's maximum when it is at least 8 degrees below today's temperature. */
  function CoolingTo(c: Observation, forecast: Option<Forecast>): (r: Option<int>)
    ensures r.Some? <==> (forecast.Some? && forecast.value.maxtempC.Some? && forecast.value.maxtempC.value != ""
                          && c.temp.Finite? && forecast.value.maxTemp.Finite? && c.temp.value - forecast.value.maxTemp.value >= 8)
    ensures r.Some? ==> r.value == forecast.value.maxTemp.value
  {
    if forecast.Some? && forecast.value.maxtempC.Some? && forecast.value.maxtempC.value != "" then
      var tomorrow := forecast.value.maxTemp;
      if c.temp.Finite? && tomorrow.Finite? && c.temp.value - tomorrow.value >= 8 then Some(tomorrow.value) else None
    else None
  }

  /** Which alert conditions hold, and tomorrow's maximum when the cooling alert fires. */
  datatype Signals = Signals(hot: bool, lowVisibility: bool, windy: bool, rainingNow: bool, rainExpected: bool,
                             coolingTo: Option<int>)

  function SignalsOf(c: Observation, forecast: Option<Forecast>): Signals {
    Signals(Hot(c), LowVisibility(c), Windy(c), RainingNow(c), RainExpected(forecast), CoolingTo(c, forecast))
  }

  /** True when some alert fires. */
  predicate Fires(s: Signals) {
    s.hot || s.lowVisibility || s.windy || s.rainingNow || s.rainExpected || s.coolingTo.Some?
  }

  /** The alert `a` when `fires` holds, nothing otherwise. */
  function When(fires: bool, a: Alert): seq<Alert> {
    if fires then [a] else []
  }

  /** The rain alert: expected rain only when it is not already raining. */
  function RainAlert(s: Signals): seq<Alert> {
    if s.rainExpected && !s.rainingNow then [RainSoon] else if s.rainingNow then [RainNow] else []
  }

  function CoolingAlert(s: Signals): seq<Alert> {
    if s.coolingTo.Some? then [Cooling(s.coolingTo.value)] else []
  }

  /** The alerts that fire, in the order `generateWeatherAlert` pushes them. */
  function AlertsFor(s: Signals): seq<Alert> {
    When(s.hot, Heat) + When(s.lowVisibility, PoorVisibility) + When(s.windy, Gale) + RainAlert(s) + CoolingAlert(s)
  }

  predicate Ordered(r: seq<Alert>) {
    forall i, j :: 0 <= i < j < |r| ==> Rank(r[i]) < Rank(r[j])
  }

  /** The rank of the last alert of `r`, or `floor` when `r` is empty. */
  function LastRank(r: seq<Alert>, floor: int): int {
    if |r| == 0 then floor else Rank(r[|r| - 1])
  }

  /** Appending at most one alert of a higher rank keeps the order. */
  lemma OrderedAppend(r: seq<Alert>, piece: seq<Alert>, k: nat)
    requires Ordered(r) && |piece| <= 1 && LastRank(r, -1) < k
    requires |piece| == 1 ==> Rank(piece[0]) == k
    ensures Ordered(r + piece) && LastRank(r + piece, -1) <= k
  {
  }

  /**
   * The alerts come in the fixed order heat, visibility, wind, rain,
   * cooling, each kind at most once, so there is at most one rain alert.
   */
  lemma AlertsOrdered(s: Signals)
    ensures Ordered(AlertsFor(s))
  {
    var r1 := When(s.hot, Heat);
    var r2 := r1 + When(s.lowVisibility, PoorVisibility);
    var r3 := r2 + When(s.windy, Gale);
    var r4 := r3 + RainAlert(s);
    assert Ordered(r1) && LastRank(r1, -1) <= 0;
    OrderedAppend(r1, When(s.lowVisibility, PoorVisibility), 1);
    OrderedAppend(r2, When(s.windy, Gale), 2);
    OrderedAppend(r3, RainAlert(s), 3);
    OrderedAppend(r4, CoolingAlert(s), 4);
  }

  /** The heat, visibility and wind alerts fire exactly when their conditions hold. */
  lemma AlertsFire(s: Signals)
    ensures var r := AlertsFor(s);
      && (Heat in r <==> s.hot)
      && (PoorVisibility in r <==> s.lowVisibility)
      && (Gale in r <==> s.windy)
  {
    var p1, p2, p3, p4, p5 := When(s.hot, Heat), When(s.lowVisibility, PoorVisibility), When(s.windy, Gale),
      RainAlert(s), CoolingAlert(s);
    assert AlertsFor(s) == p1 + p2 + p3 + (p4 + p5);
    assert Heat !in p4 + p5 && PoorVisibility !in p4 + p5 && Gale !in p4 + p5;
  }

  /** Current rain wins over expected rain: at most one of the two rain alerts fires. */
  lemma RainAlertsFire(s: Signals)
    ensures var r := AlertsFor(s);
      && (RainNow in r <==> s.rainingNow)
      && (RainSoon in r <==> s.rainExpected && !s.rainingNow)
  {
  }

  /** No alert line exactly when no condition holds. */
  lemma NoAlertsIffQuiet(s: Signals)
    ensures AlertsFor(s) == [] <==> !Fires(s)
  {
  }

  /** The cooling alert, when it fires, is the last one and names tomorrow's maximum. */
  lemma CoolingAlertLast(s: Signals)
    ensures var r := AlertsFor(s);
      && (s.coolingTo.Some? <==> |r| > 0 && r[|r| - 1].Cooling?)
      && (s.coolingTo.Some? ==> r[|r| - 1] == Cooling(s.coolingTo.value))
  {
    var front := When(s.hot, Heat) + When(s.lowVisibility, PoorVisibility) + When(s.windy, Gale) + RainAlert(s);
    assert AlertsFor(s) == front + CoolingAlert(s);
    assert forall i :: 0 <= i < |front| ==> !front[i].Cooling?;
  }

  /** The alerts `generateWeatherAlert` reports for these conditions. */
  function Alerts(c: Observation, forecast: Option<Forecast>): seq<Alert> {
    AlertsFor(SignalsOf(c, forecast))
  }

  function AlertTexts(alerts: seq<Alert>): (r: seq<string>)
    ensures |r| == |alerts|
    ensures forall i :: 0 <= i < |alerts| ==> r[i] == AlertText(alerts[i])
  {
    if |alerts| == 0 then [] else AlertTexts(alerts[..|alerts| - 1]) + [AlertText(alerts[|alerts| - 1])]
  }

  /** The alerts joined with '；', or null when none fires. */
  function AlertLine(s: Signals): (r: Option<string>)
    ensures r.None? <==> !Fires(s)
  {
    var alerts := AlertsFor(s);
    NoAlertsIffQuiet(s);
    if |alerts| > 0 then Some(Join(AlertTexts(alerts), "；")) else None
  }

  /** What `generateWeatherAlert(current, forecast)` returns. */
  function WeatherAlert(c: Observation, forecast: Option<Forecast>): Option<string> {
    AlertLine(SignalsOf(c, forecast))
  }

  /** A number written out holds only a sign and digits. */
  lemma IntTextHasNoSemicolon(t: int)
    ensures '；' !in IntToString(t)
  {
    var digits := NatToString(if t < 0 then -t else t);
    assert forall i :: 0 <= i < |digits| ==> IsDigit(digits[i]);
    assert IntToString(t) == (if t < 0 then "-" else "") + digits;
  }

  lemma NoSemicolonInAlert(a: Alert)
    ensures '；' !in AlertText(a)
  {
    match a
    case Cooling(t) =>
      IntTextHasNoSemicolon(t);
      var parts := ["明日降温至", IntToString(t), "°C，注意保暖"];
      assert AlertText(a) == parts[0] + parts[1] + parts[2];
    case _ =>
  }

  /** The alert line lists each fired alert as its own '；'-separated piece, in order. */
  lemma AlertLinePieces(c: Observation, forecast: Option<Forecast>)
    requires Fires(SignalsOf(c, forecast))
    ensures Split(WeatherAlert(c, forecast).value, '；') == AlertTexts(Alerts(c, forecast))
  {
    var texts := AlertTexts(Alerts(c, forecast));
    forall i | 0 <= i < |texts|
      ensures '；' !in texts[i]
    {
      NoSemicolonInAlert(Alerts(c, forecast)[i]);
    }
    SplitJoin(texts, '；');
  }

  /** The loop of `rainKeywords.some(keyword => desc.includes(keyword))`. */
  method HasRainKeyword(desc: string) returns (found: bool)
    ensures found <==> MentionsAny(desc, RAIN_KEYWORDS)
  {
    found := false;
    var k := 0;
    while k < |RAIN_KEYWORDS| && !found
      invariant 0 <= k <= |RAIN_KEYWORDS|
      invariant found <==> exists i :: 0 <= i < k && Contains(desc, RAIN_KEYWORDS[i])
    {
      found := Contains(desc, RAIN_KEYWORDS[k]);
      k := k + 1;
    }
  }

  /** `if (fires) alerts.push(text)`, with the alert the text stands for. */
  method PushWhen(alerts: seq<string>, ghost kinds: seq<Alert>, fires: bool, a: Alert)
    returns (pushed: seq<string>, ghost pushedKinds: seq<Alert>)
    requires alerts == AlertTexts(kinds)
    ensures pushedKinds == kinds + When(fires, a) && pushed == AlertTexts(pushedKinds)
  {
    pushed, pushedKinds := alerts, kinds;
    if fires {
      pushed, pushedKinds := alerts + [AlertText(a)], kinds + [a];
      assert pushedKinds[..|kinds|] == kinds;
    } else {
      assert kinds + [] == kinds;
    }
  }

  /** The fog and haze test of the visibility alert. */
  method IsHazy(weatherDesc: string) returns (hazy: bool)
    ensures hazy <==> MentionsAny(weatherDesc, HAZE_WORDS)
  {
    hazy := Contains(weatherDesc, "霾") || Contains(weatherDesc, "雾") || Contains(weatherDesc, "fog")
      || Contains(weatherDesc, "mist");
    assert HAZE_WORDS[0] == "霾" && HAZE_WORDS[1] == "雾" && HAZE_WORDS[2] == "fog" && HAZE_WORDS[3] == "mist";
  }

  /** `todayHourly.some(...)`: whether one of the next three hours mentions rain. */
  method RainInNextHours(forecast: Option<Forecast>) returns (willRainSoon: bool)
    ensures willRainSoon <==> RainExpected(forecast)
  {
    var todayHourly := NextHours(forecast);
    willRainSoon := false;
    for h := 0 to |todayHourly|
      invariant willRainSoon <==> exists i :: 0 <= i < h && MentionsAny(Lower(todayHourly[i]), RAIN_KEYWORDS)
    {
      var hourRain := HasRainKeyword(Lower(todayHourly[h]));
      willRainSoon := willRainSoon || hourRain;
    }
  }

  /** The cooling test: `forecast.maxtempC` present and today's temperature at least 8 above it. */
  method TomorrowMuchColder(c: Observation, forecast: Option<Forecast>) returns (coolingTo: Option<int>)
    ensures coolingTo == CoolingTo(c, forecast)
  {
    coolingTo := None;
    if forecast.Some? && forecast.value.maxtempC.Some? && forecast.value.maxtempC.value != "" {
      var todayMax := c.temp;
      var tomorrowMax := forecast.value.maxTemp;
      if todayMax.Finite? && tomorrowMax.Finite? && todayMax.value - tomorrowMax.value >= 8 {
        coolingTo := Some(tomorrowMax.value);
      }
    }
  }

  /** The tests of `generateWeatherAlert`, each evaluated as the source evaluates it. */
  method ReadSignals(c: Observation, forecast: Option<Forecast>) returns (s: Signals)
    ensures s == SignalsOf(c, forecast)
  {
    var weatherDesc := Lower(c.description);
    var hot := c.temp.Finite? && c.temp.value > 35;
    var hazy := IsHazy(weatherDesc);
    var lowVisibility := (c.visibility.Finite? && c.visibility.value < 5.0) || hazy;
    var windy := c.windSpeed.Finite? && c.windSpeed.value > 30.0;
    var currentHasRain := HasRainKeyword(weatherDesc);
    var willRainSoon := RainInNextHours(forecast);
    var coolingTo := TomorrowMuchColder(c, forecast);
    s := Signals(hot, lowVisibility, windy, currentHasRain, willRainSoon, coolingTo);
  }

  /** The pushes of `generateWeatherAlert` onto the `alerts` array, in source order, and the final join. */
  method ComposeAlert(s: Signals) returns (r: Option<string>)
    ensures r == AlertLine(s)
  {
    var alerts: seq<string> := [];
    ghost var kinds: seq<Alert> := [];
    alerts, kinds := PushWhen(alerts, kinds, s.hot, Heat);
    assert kinds == When(s.hot, Heat);
    alerts, kinds := PushWhen(alerts, kinds, s.lowVisibility, PoorVisibility);
    alerts, kinds := PushWhen(alerts, kinds, s.windy, Gale);
    alerts, kinds := PushRain(alerts, kinds, s);
    alerts, kinds := PushCooling(alerts, kinds, s);
    assert kinds == AlertsFor(s);
    r := if |alerts| > 0 then Some(Join(alerts, "；")) else None;
  }

  /** The rain alert's `if ... else if ...` push. */
  method PushRain(alerts: seq<string>, ghost kinds: seq<Alert>, s: Signals)
    returns (pushed: seq<string>, ghost pushedKinds: seq<Alert>)
    requires alerts == AlertTexts(kinds)
    ensures pushedKinds == kinds + RainAlert(s) && pushed == AlertTexts(pushedKinds)
  {
    if s.rainExpected && !s.rainingNow {
      pushed, pushedKinds := PushWhen(alerts, kinds, true, RainSoon);
    } else if s.rainingNow {
      pushed, pushedKinds := PushWhen(alerts, kinds, true, RainNow);
    } else {
      pushed, pushedKinds := alerts, kinds;
      assert kinds + [] == kinds;
    }
  }

  /** The cooling alert's push. */
  method PushCooling(alerts: seq<string>, ghost kinds: seq<Alert>, s: Signals)
    returns (pushed: seq<string>, ghost pushedKinds: seq<Alert>)
    requires alerts == AlertTexts(kinds)
    ensures pushedKinds == kinds + CoolingAlert(s) && pushed == AlertTexts(pushedKinds)
  {
    if s.coolingTo.Some? {
      pushed, pushedKinds := PushWhen(alerts, kinds, true, Cooling(s.coolingTo.value));
    } else {
      pushed, pushedKinds := alerts, kinds;
      assert kinds + [] == kinds;
    }
  }

  /**
   * `generateWeatherAlert(current, forecast)`.  The tests have no side
   * effects, so reading them all before the pushes changes nothing.
   */
  method GenerateWeatherAlert(c: Observation, forecast: Option<Forecast>) returns (r: Option<string>)
    ensures r == WeatherAlert(c, forecast)
  {
    var signals := ReadSignals(c, forecast);
    r := ComposeAlert(signals);
  }

  // ----------------------------------------------------------------- reply

  /** The object `getWeatherFromWttr` returns. */
  datatype WeatherInfo = WeatherInfo(
    city: string, temp: string, humidity: string, windDir: string, windSpeed: string,
    windLevel: string, weatherDesc: string, alert: Option<string>, tomorrowMax: Option<string>)

  /** What `getWeatherFromWttr` builds from the decoded wttr.in answer. */
  function Report(city: string, c: Observation, tomorrow: Option<Forecast>): (info: WeatherInfo)
    ensures info.city == city && info.temp == c.tempC && info.humidity == c.humidity
    ensures info.alert == WeatherAlert(c, tomorrow)
    ensures info.weatherDesc == TranslateWeatherDesc(c.description)
    ensures info.windDir == TranslateWindDir(c.winddir16Point)
    ensures info.windLevel in LEVEL_NAMES
  {
    WeatherInfo(city, c.tempC, c.humidity, TranslateWindDir(c.winddir16Point), c.windspeedKmph,
                ConvertWindLevel(c.windSpeed), TranslateWeatherDesc(c.description), WeatherAlert(c, tomorrow),
                if tomorrow.Some? then tomorrow.value.maxtempC else None)
  }

  /** The first line of the reply: `<city> <temp>°C，<desc>，湿度<h>%，<dir><level>`. */
  function FirstLine(info: WeatherInfo): string {
    info.city + " " + info.temp + "°C，" + info.weatherDesc + "，湿度" + info.humidity + "%，" + info.windDir + info.windLevel
  }

  predicate OneLine(info: WeatherInfo) {
    '\n' !in FirstLine(info) && (info.alert.Some? ==> '\n' !in info.alert.value)
  }

  /** A present alert is never empty. */
  predicate HasAlert(info: WeatherInfo) {
    info.alert.Some? && info.alert.value != ""
  }

  /** The reply text: the first line, then a blank line and the alert when there is one. */
  function WeatherText(info: WeatherInfo): (text: string)
    ensures StartsWith(text, FirstLine(info))
    ensures HasAlert(info) <==> |text| > |FirstLine(info)|
  {
    var line := FirstLine(info);
    if HasAlert(info) then
      var text := line + ("\n\n" + info.alert.value);
      assert text[..|line|] == line;
      text
    else
      assert line[..|line|] == line;
      line
  }

  /** Read as lines, the reply is its first line, followed by a blank line and the alert only when there is one. */
  lemma WeatherTextLines(info: WeatherInfo)
    requires OneLine(info)
    ensures Split(WeatherText(info), '\n') == [FirstLine(info)] + (if HasAlert(info) then ["", info.alert.value] else [])
  {
    if HasAlert(info) {
      ReplyLines(FirstLine(info), info.alert.value);
    } else {
      SplitWithoutSep(FirstLine(info), '\n');
    }
  }

  lemma ReplyLines(line: string, alert: string)
    requires '\n' !in line && '\n' !in alert
    ensures Split(line + ("\n\n" + alert), '\n') == [line, "", alert]
  {
    SplitWithoutSep(line, '\n');
    SplitWithoutSep(alert, '\n');
    SplitAppend(line, "\n\n" + alert, '\n');
    SplitCons('\n', "\n" + alert, '\n');
    SplitCons('\n', alert, '\n');
    assert "\n\n" + alert == ['\n'] + ("\n" + alert);
    assert "\n" + alert == ['\n'] + alert;
    assert line + "" == line;
  }

  const EMPTY_CITY := "城市名称不能为空"
  /** The TypeError `city.trim()` raises when `city` is a truthy non-string. */
  const CITY_NOT_TEXT := "city.trim is not a function"
  const HANDLER_FAILED := "查询天气失败: "
  const LOOKUP_FAILED := "天气查询失败: "

  /** The wttr.in request for a city: the decoded current conditions and tomorrow's entry, or the error message. */
  type Fetch = string -> Result<(Observation, Option<Forecast>), string>

  /** The city `getWeatherHandler` looks up: `params.city` trimmed, or the error it rejects with. */
  function CityOf(params: Value): Result<string, string> {
    var city := Get(params, "city");
    if !Truthy(city) then Err(EMPTY_CITY)
    else if !city.Str? then Err(CITY_NOT_TEXT)
    else if |Trim(city.s)| == 0 then Err(EMPTY_CITY)
    else Ok(Trim(city.s))
  }

  /**
   * A missing, empty or all-blank city is refused before any lookup, a
   * truthy non-string city fails on `trim`, and any other city is looked
   * up trimmed.
   */
  lemma CityOutcomes(params: Value)
    ensures var city := Get(params, "city");
      !Truthy(city) ==> CityOf(params) == Err(EMPTY_CITY)
    ensures var city := Get(params, "city");
      city.Str? ==> (CityOf(params) == Err(EMPTY_CITY) <==> AllSpace(city.s))
    ensures var city := Get(params, "city");
      Truthy(city) && !city.Str? ==> CityOf(params) == Err(CITY_NOT_TEXT)
    ensures var city := Get(params, "city");
      city.Str? && !AllSpace(city.s) ==> CityOf(params) == Ok(Trim(city.s))
    ensures CityOf(params).Ok? ==> var t := CityOf(params).value;
      t != "" && !IsSpace(t[0]) && !IsSpace(t[|t| - 1])
  {
  }

  /** `getWeatherHandler(params)`, building `response` with `+=`. */
  method GetWeatherHandler(params: Value, fetch: Fetch) returns (r: Result<string, string>)
    ensures CityOf(params).Err? ==> r == Err(CityOf(params).error)
    ensures CityOf(params).Ok? && fetch(CityOf(params).value).Err? ==>
      r == Err(HANDLER_FAILED + LOOKUP_FAILED + fetch(CityOf(params).value).error)
    ensures CityOf(params).Ok? && fetch(CityOf(params).value).Ok? ==>
      var answer := fetch(CityOf(params).value).value;
      r == Ok(WeatherText(Report(CityOf(params).value, answer.0, answer.1)))
  {
    var city := Get(params, "city");
    if !Truthy(city) {
      return Err(EMPTY_CITY);
    }
    if !city.Str? {
      return Err(CITY_NOT_TEXT);
    }
    if |Trim(city.s)| == 0 {
      return Err(EMPTY_CITY);
    }
    var answer := fetch(Trim(city.s));
    if answer.Err? {
      return Err(HANDLER_FAILED + LOOKUP_FAILED + answer.error);
    }
    var weatherInfo := Report(Trim(city.s), answer.value.0, answer.value.1);
    var response := ReplyText(weatherInfo);
    return Ok(response);
  }

  /** The reply assembled with `+=`: the first line, then the alert when it is present and non-empty. */
  method ReplyText(weatherInfo: WeatherInfo) returns (response: string)
    ensures response == WeatherText(weatherInfo)
  {
    response := FirstLine(weatherInfo);
    if weatherInfo.alert.Some? && weatherInfo.alert.value != "" {
      response := response + ("\n\n" + weatherInfo.alert.value);
    }
  }
}
