/**
 * The crop advice of the weather service (src/services/weatherService.js):
 * threshold rules over the current reading and the forecast give at most one
 * alert and up to five recommendations, in a fixed order.
 */
module WeatherService {
  import Seqs

  datatype Current = Current(temperature: real, windSpeed: real, uvIndex: real, humidity: real)

  datatype ForecastDay = ForecastDay(high: real, low: real, precipitationChance: real)

  datatype WeatherData = WeatherData(current: Current, forecast: seq<ForecastDay>)

  datatype Priority = High | Medium | Low

  /** The two alerts; the message, icon and action list of each are display text. */
  datatype Alert = Frost | Heat

  function Severity(a: Alert): Priority {
    match a
    case Frost => High
    case Heat => Medium
  }

  function AlertTitle(a: Alert): string {
    match a
    case Frost => "Frost Warning"
    case Heat => "Heat Advisory"
  }

  /** The five recommendations; the message and icon of each are display text. */
  datatype Recommendation = Watering | Wind | Uv | Planting | Pest

  function PriorityOf(r: Recommendation): Priority {
    match r
    case Watering => Medium
    case Wind => High
    case Uv => Low
    case Planting => Medium
    case Pest => Medium
  }

  function Title(r: Recommendation): string {
    match r
    case Watering => "Adjust Watering Schedule"
    case Wind => "High Wind Advisory"
    case Uv => "High UV Index"
    case Planting => "Optimal Planting Conditions"
    case Pest => "Pest Monitoring"
  }

  /** An alert as pushed: its kind, `severity` and `title`. */
  datatype AlertEntry = AlertEntry(alert: Alert, severity: Priority, title: string)

  /** A recommendation as pushed: its kind, `title` and `priority`. */
  datatype RecommendationEntry = RecommendationEntry(recommendation: Recommendation, title: string, priority: Priority)

  function AlertEntryOf(a: Alert): AlertEntry {
    AlertEntry(a, Severity(a), AlertTitle(a))
  }

  function EntryOf(r: Recommendation): RecommendationEntry {
    RecommendationEntry(r, Title(r), PriorityOf(r))
  }

  /** Different recommendations have different titles (their lengths already differ). */
  lemma TitleInjective(a: Recommendation, b: Recommendation)
    requires a != b
    ensures Title(a) != Title(b)
  {
    assert |Title(a)| != |Title(b)|;
  }

  /** The order the rules run in. */
  const RuleOrder: seq<Recommendation> := [Watering, Wind, Uv, Planting, Pest]

  /** `forecast.slice(0, n)`. */
  function Take(days: seq<ForecastDay>, n: nat): (r: seq<ForecastDay>)
    ensures |r| == if |days| < n then |days| else n
    ensures forall i :: 0 <= i < |r| ==> r[i] == days[i]
  {
    if |days| < n then days else days[..n]
  }

  /** `days.some(day => day.precipitationChance > 60)`. */
  function AnyRain(days: seq<ForecastDay>): (r: bool)
    ensures r <==> exists i :: 0 <= i < |days| && days[i].precipitationChance > 60.0
  {
    if days == [] then false
    else
      assert forall i :: 1 <= i < |days| ==> days[i] == days[1..][i - 1];
      days[0].precipitationChance > 60.0 || AnyRain(days[1..])
  }

  /** `days.reduce((sum, day) => sum + (day.high + day.low) / 2, 0)`. */
  function SumOfMidpoints(days: seq<ForecastDay>): real {
    if days == [] then 0.0 else SumOfMidpoints(days[..|days| - 1]) + (days[|days| - 1].high + days[|days| - 1].low) / 2.0
  }

  /** The sum of highs and lows over the days. */
  function SumOfExtremes(days: seq<ForecastDay>): real {
    if days == [] then 0.0 else SumOfExtremes(days[..|days| - 1]) + days[|days| - 1].high + days[|days| - 1].low
  }

  /** The week's average temperature, always divided by seven however many days the forecast has. */
  function AvgTemp(forecast: seq<ForecastDay>): real {
    SumOfMidpoints(Take(forecast, 7)) / 7.0
  }

  /** The reduce of midpoints is half the sum of the extremes. */
  lemma {:induction false} MidpointsAreHalfExtremes(days: seq<ForecastDay>)
    ensures SumOfMidpoints(days) == SumOfExtremes(days) / 2.0
    decreases |days|
  {
    if days != [] {
      MidpointsAreHalfExtremes(days[..|days| - 1]);
    }
  }

  /**
   * The planting window in whole numbers: the average lies in 65..75 exactly
   * when the highs and lows of the first seven days add up to 910..1050
   * (fourteen times the bounds), with a short forecast still divided by seven.
   */
  lemma PlantingWindow(forecast: seq<ForecastDay>)
    ensures 65.0 <= AvgTemp(forecast) <= 75.0 <==> 910.0 <= SumOfExtremes(Take(forecast, 7)) <= 1050.0
  {
    MidpointsAreHalfExtremes(Take(forecast, 7));
  }

  /** Whether the rule for a recommendation fires. */
  predicate Applies(r: Recommendation, w: WeatherData) {
    match r
    case Watering => AnyRain(Take(w.forecast, 3))
    case Wind => w.current.windSpeed > 20.0
    case Uv => w.current.uvIndex > 8.0
    case Planting => 65.0 <= AvgTemp(w.forecast) <= 75.0
    case Pest => w.current.humidity > 70.0 && w.current.temperature > 70.0
  }

  function AppliesTo(w: WeatherData): Recommendation -> bool {
    (r: Recommendation) => Applies(r, w)
  }

  /** A recommendation when its rule fires, else nothing. */
  function Rule(r: Recommendation, fires: Recommendation -> bool): (s: seq<Recommendation>)
    ensures forall x :: x in s <==> x == r && fires(r)
    ensures |s| <= 1
  {
    if fires(r) then [r] else []
  }

  /** The recommendations, rule after rule, for any way of deciding which rules fire. */
  function Advice(fires: Recommendation -> bool): seq<Recommendation> {
    Rule(Watering, fires) + Rule(Wind, fires) + Rule(Uv, fires) + Rule(Planting, fires) + Rule(Pest, fires)
  }

  /** The alerts: frost below 35 degrees, heat above 90. */
  function Alerts(w: WeatherData): seq<Alert> {
    (if w.current.temperature < 35.0 then [Frost] else []) +
    (if w.current.temperature > 90.0 then [Heat] else [])
  }

  /** At most one alert, frost exactly when it is below 35 degrees and heat exactly above 90. */
  lemma AlertsSpec(w: WeatherData)
    ensures |Alerts(w)| <= 1
    ensures Frost in Alerts(w) <==> w.current.temperature < 35.0
    ensures Heat in Alerts(w) <==> w.current.temperature > 90.0
  {
  }

  /** A recommendation's place in the rule order. */
  function Rank(r: Recommendation): int {
    match r
    case Watering => 0
    case Wind => 1
    case Uv => 2
    case Planting => 3
    case Pest => 4
  }

  /** Strictly in rule order, so with no recommendation twice. */
  predicate InRuleOrder(s: seq<Recommendation>) {
    forall i, j :: 0 <= i < j < |s| ==> Rank(s[i]) < Rank(s[j])
  }

  lemma ConcatInRuleOrder(a: seq<Recommendation>, b: seq<Recommendation>, k: int)
    requires InRuleOrder(a) && InRuleOrder(b)
    requires forall x :: x in a ==> Rank(x) < k
    requires forall x :: x in b ==> Rank(x) >= k
    ensures InRuleOrder(a + b)
  {
    forall i, j | 0 <= i < j < |a + b|
      ensures Rank((a + b)[i]) < Rank((a + b)[j])
    {
      if i < |a| && j >= |a| {
        assert (a + b)[i] == a[i] && a[i] in a;
        assert (a + b)[j] == b[j - |a|] && b[j - |a|] in b;
      }
    }
  }

  /** The recommendations are exactly those whose rule fires, so there are at most five. */
  lemma AdviceMembers(fires: Recommendation -> bool)
    ensures forall r :: r in Advice(fires) <==> fires(r)
    ensures |Advice(fires)| <= 5
  {
  }

  /** The recommendations come strictly in the rule order rain, wind, UV, planting, pest, each at most once. */
  lemma AdviceOrder(fires: Recommendation -> bool)
    ensures InRuleOrder(Advice(fires))
  {
    var a := Rule(Watering, fires) + Rule(Wind, fires);
    var b := a + Rule(Uv, fires);
    var c := b + Rule(Planting, fires);
    ConcatInRuleOrder(Rule(Watering, fires), Rule(Wind, fires), 1);
    ConcatInRuleOrder(a, Rule(Uv, fires), 2);
    ConcatInRuleOrder(b, Rule(Planting, fires), 3);
    ConcatInRuleOrder(c, Rule(Pest, fires), 4);
  }

  /** The alert records for a reading, in push order. */
  function AlertEntries(w: WeatherData): seq<AlertEntry> {
    (if w.current.temperature < 35.0 then [AlertEntry(Frost, High, "Frost Warning")] else []) +
    (if w.current.temperature > 90.0 then [AlertEntry(Heat, Medium, "Heat Advisory")] else [])
  }

  /** A recommendation's record when its rule fires, else nothing. */
  function RuleEntry(r: Recommendation, fires: Recommendation -> bool): seq<RecommendationEntry> {
    if fires(r) then [EntryOf(r)] else []
  }

  /** The recommendation records, rule after rule, for any way of deciding which rules fire. */
  function Entries(fires: Recommendation -> bool): seq<RecommendationEntry> {
    RuleEntry(Watering, fires) + RuleEntry(Wind, fires) + RuleEntry(Uv, fires) + RuleEntry(Planting, fires) +
    RuleEntry(Pest, fires)
  }

  /** The records are the recommendations of `Advice`, each with its title and priority. */
  lemma EntriesAreAdvice(fires: Recommendation -> bool)
    ensures Entries(fires) == Seqs.Map(Advice(fires), EntryOf)
  {
    var a := Rule(Watering, fires);
    var b := a + Rule(Wind, fires);
    var c := b + Rule(Uv, fires);
    var d := c + Rule(Planting, fires);
    Seqs.MapAppend(a, Rule(Wind, fires), EntryOf);
    Seqs.MapAppend(b, Rule(Uv, fires), EntryOf);
    Seqs.MapAppend(c, Rule(Planting, fires), EntryOf);
    Seqs.MapAppend(d, Rule(Pest, fires), EntryOf);
    RuleEntryIsMapped(Watering, fires);
    RuleEntryIsMapped(Wind, fires);
    RuleEntryIsMapped(Uv, fires);
    RuleEntryIsMapped(Planting, fires);
    RuleEntryIsMapped(Pest, fires);
  }

  lemma RuleEntryIsMapped(r: Recommendation, fires: Recommendation -> bool)
    ensures Seqs.Map(Rule(r, fires), EntryOf) == RuleEntry(r, fires)
  {
  }

  /** The recommendation records for a reading. */
  function RecommendationEntries(w: WeatherData): seq<RecommendationEntry> {
    Entries(AppliesTo(w))
  }

  /** A high-severity "Frost Warning" exactly below 35 degrees, a medium "Heat Advisory" exactly above 90, never both. */
  lemma AlertEntriesSpec(w: WeatherData)
    ensures AlertEntry(Frost, High, "Frost Warning") in AlertEntries(w) <==> w.current.temperature < 35.0
    ensures AlertEntry(Heat, Medium, "Heat Advisory") in AlertEntries(w) <==> w.current.temperature > 90.0
    ensures |AlertEntries(w)| <= 1
    ensures AlertEntries(w) == Seqs.Map(Alerts(w), AlertEntryOf)
  {
  }

  /** The recommendation records come from rules that fire, and no title is pushed twice. */
  lemma EntryTitlesDistinct(fires: Recommendation -> bool)
    ensures forall i :: 0 <= i < |Entries(fires)| ==> fires(Entries(fires)[i].recommendation)
    ensures forall i, j :: 0 <= i < j < |Entries(fires)| ==> Entries(fires)[i].title != Entries(fires)[j].title
  {
    var advice := Advice(fires);
    AdviceMembers(fires);
    AdviceOrder(fires);
    EntriesAreAdvice(fires);
    var entries := Entries(fires);
    forall i | 0 <= i < |entries|
      ensures fires(entries[i].recommendation)
    {
      assert advice[i] in advice;
    }
    forall i, j | 0 <= i < j < |entries|
      ensures entries[i].title != entries[j].title
    {
      assert Rank(advice[i]) < Rank(advice[j]);
      TitleInjective(advice[i], advice[j]);
    }
  }

  /** The only high-priority record is the "High Wind Advisory", pushed exactly when the wind rule fires. */
  lemma HighPriorityIsWind(fires: Recommendation -> bool)
    ensures forall e :: e in Entries(fires) && e.priority == High ==> e.title == "High Wind Advisory"
    ensures RecommendationEntry(Wind, "High Wind Advisory", High) in Entries(fires) <==> fires(Wind)
  {
    forall e | e in Entries(fires)
      ensures fires(e.recommendation) && e == EntryOf(e.recommendation)
    {
      RuleEntryMembers(e, fires);
    }
  }

  /** A record in the list is the record of a rule that fires. */
  lemma RuleEntryMembers(e: RecommendationEntry, fires: Recommendation -> bool)
    requires e in Entries(fires)
    ensures fires(e.recommendation) && e == EntryOf(e.recommendation)
  {
    var a := RuleEntry(Watering, fires) + RuleEntry(Wind, fires);
    var b := a + RuleEntry(Uv, fires);
    var c := b + RuleEntry(Planting, fires);
    assert e in c || e in RuleEntry(Pest, fires);
    assert e in b || e in RuleEntry(Planting, fires) || e in RuleEntry(Pest, fires);
  }

  /**
   * `generateCropRecommendations`: a frost alert below 35 degrees, a heat
   * alert above 90; then each rule in turn pushes its recommendation.
   */
  method GenerateCropRecommendations(w: WeatherData) returns (recommendations: seq<RecommendationEntry>, alerts: seq<AlertEntry>)
    ensures alerts == AlertEntries(w)
    ensures recommendations == RecommendationEntries(w)
  {
    alerts := [];
    recommendations := [];
    if w.current.temperature < 35.0 {
      alerts := alerts + [AlertEntry(Frost, High, "Frost Warning")];
    }
    if w.current.temperature > 90.0 {
      alerts := alerts + [AlertEntry(Heat, Medium, "Heat Advisory")];
    }
    assert alerts == AlertEntries(w);

    var upcomingRain := AnyRain(Take(w.forecast, 3));
    if upcomingRain {
      recommendations := recommendations + [RecommendationEntry(Watering, "Adjust Watering Schedule", Medium)];
    }
    assert recommendations == RuleEntry(Watering, AppliesTo(w));
    if w.current.windSpeed > 20.0 {
      recommendations := recommendations + [RecommendationEntry(Wind, "High Wind Advisory", High)];
    }
    assert recommendations == RuleEntry(Watering, AppliesTo(w)) + RuleEntry(Wind, AppliesTo(w));
    if w.current.uvIndex > 8.0 {
      recommendations := recommendations + [RecommendationEntry(Uv, "High UV Index", Low)];
    }
    assert recommendations == RuleEntry(Watering, AppliesTo(w)) + RuleEntry(Wind, AppliesTo(w)) + RuleEntry(Uv, AppliesTo(w));
    var avgTemp := AvgTemp(w.forecast);
    if avgTemp >= 65.0 && avgTemp <= 75.0 {
      recommendations := recommendations + [RecommendationEntry(Planting, "Optimal Planting Conditions", Medium)];
    }
    assert recommendations == RuleEntry(Watering, AppliesTo(w)) + RuleEntry(Wind, AppliesTo(w)) + RuleEntry(Uv, AppliesTo(w)) +
      RuleEntry(Planting, AppliesTo(w));
    if w.current.humidity > 70.0 && w.current.temperature > 70.0 {
      recommendations := recommendations + [RecommendationEntry(Pest, "Pest Monitoring", Medium)];
    }
  }
}
