/**
 * The plan service: the deterministic fallback plan, tolerant recovery of a
 * JSON object from the model's reply with per-field defaulting, the routing
 * of every outcome of the remote call, and the prompt sent with it.
 */
module PlanService {
  import opened Wrappers
  import opened Text
  import opened JsValues
  import opened FormData

  // ---------------------------------------------------------------------
  // The plan record

  /** One itinerary entry as the fallback generator builds it. */
  datatype DayPlan = DayPlan(
    day: int,
    title: string,
    activities: seq<string>,
    estimatedCost: int,
    timeOfDay: string)

  datatype BudgetBreakdown = BudgetBreakdown(
    accommodation: int,
    food: int,
    activities: int,
    transportation: int,
    miscellaneous: int)

  /**
   * The plan handed to the caller. The six fields after `budget` hold whatever
   * JavaScript value ends up there: a truthy value of the reply, which the
   * service never type-checks, or one the service builds itself.
   */
  datatype GeneratedTravelPlan = GeneratedTravelPlan(
    destination: string,
    duration: string,
    budget: int,
    itinerary: JsValue,
    recommendations: JsValue,
    weatherInfo: JsValue,
    budgetBreakdown: JsValue,
    localTips: JsValue,
    emergencyInfo: JsValue)

  function Total(b: BudgetBreakdown): int {
    b.accommodation + b.food + b.activities + b.transportation + b.miscellaneous
  }

  function NumberValue(n: int): JsValue {
    Number(n as real)
  }

  function StringsValue(xs: seq<string>): JsValue {
    Array(seq(|xs|, i requires 0 <= i < |xs| => Str(xs[i])))
  }

  function DayPlanValue(d: DayPlan): JsValue {
    Object(map[
      "day" := NumberValue(d.day),
      "title" := Str(d.title),
      "activities" := StringsValue(d.activities),
      "estimatedCost" := NumberValue(d.estimatedCost),
      "timeOfDay" := Str(d.timeOfDay)])
  }

  function ItineraryValue(days: seq<DayPlan>): JsValue {
    Array(seq(|days|, i requires 0 <= i < |days| => DayPlanValue(days[i])))
  }

  function BreakdownValue(b: BudgetBreakdown): JsValue {
    Object(map[
      "accommodation" := NumberValue(b.accommodation),
      "food" := NumberValue(b.food),
      "activities" := NumberValue(b.activities),
      "transportation" := NumberValue(b.transportation),
      "miscellaneous" := NumberValue(b.miscellaneous)])
  }

  /** Every field has the kind the plan's declared type gives it. */
  predicate WellShaped(p: GeneratedTravelPlan) {
    && p.itinerary.Array?
    && p.recommendations.Array?
    && p.weatherInfo.Str?
    && p.budgetBreakdown.Object?
    && p.localTips.Array?
    && p.emergencyInfo.Array?
  }

  // ---------------------------------------------------------------------
  // Budget splits

  /** `part` is `Math.floor(budget * percent / 100)`. */
  predicate IsFloorShare(part: int, budget: int, percent: int) {
    100 * part <= percent * budget < 100 * part + 100
  }

  /** The split a parsed reply without a truthy `budgetBreakdown` gets: 40/30/20/8/2 percent. */
  function ReplyDefaultSplit(budget: int): (r: BudgetBreakdown)
    ensures IsFloorShare(r.accommodation, budget, 40) && IsFloorShare(r.food, budget, 30)
    ensures IsFloorShare(r.activities, budget, 20) && IsFloorShare(r.transportation, budget, 8)
    ensures IsFloorShare(r.miscellaneous, budget, 2)
    ensures budget - 5 < Total(r) <= budget
    ensures budget >= 0 ==>
      r.accommodation >= 0 && r.food >= 0 && r.activities >= 0 && r.transportation >= 0 && r.miscellaneous >= 0
  {
    BudgetBreakdown(budget * 40 / 100, budget * 30 / 100, budget * 20 / 100, budget * 8 / 100, budget * 2 / 100)
  }

  /** The split of the fallback plan: 40/25/20/10/5 percent. */
  function MockSplit(budget: int): (r: BudgetBreakdown)
    ensures IsFloorShare(r.accommodation, budget, 40) && IsFloorShare(r.food, budget, 25)
    ensures IsFloorShare(r.activities, budget, 20) && IsFloorShare(r.transportation, budget, 10)
    ensures IsFloorShare(r.miscellaneous, budget, 5)
    ensures budget - 5 < Total(r) <= budget
    ensures budget >= 0 ==>
      r.accommodation >= 0 && r.food >= 0 && r.activities >= 0 && r.transportation >= 0 && r.miscellaneous >= 0
  {
    BudgetBreakdown(budget * 40 / 100, budget * 25 / 100, budget * 20 / 100, budget * 10 / 100, budget * 5 / 100)
  }

  // ---------------------------------------------------------------------
  // The fallback plan

  const DaysWord: string := " ימים"
  const TitlePrefix: string := "יום "
  const TitleInfix: string := " - חקירה ב"
  const Morning: string := "בוקר"
  const Afternoon: string := "צהריים"
  const Evening: string := "ערב"
  const MockActivities: seq<string> := ["ביקור באטרקציה מרכזית", "סיור ברובע ההיסטורי", "ארוחה במסעדה מקומית מומלצת", "קניות בשוק המקומי"]
  const MockRecommendations: seq<string> := ["הזמינו מקומות מראש בעונת השיא", "קחו ביטוח נסיעות מקיף", "למדו מילים בסיסיות בשפה המקומית", "בדקו מזג האויר לפני הנסיעה", "שמרו על עותקים דיגיטליים של המסמכים החשובים"]
  const MockWeather: string := "מזג אוויר נעים וחם, מומלץ להביא בגדי קיץ וכובע"
  const MockLocalTips: seq<string> := ["השתמשו בתחבורה ציבורית לחיסכון", "אכלו במקומות שבהם אוכלים המקומיים", "למדו על המנהגים המקומיים", "הכינו רשימת ביטויים בשפה המקומית"]
  const MockEmergencyInfo: seq<string> := ["מספר חירום מקומי: 112", "כתובת השגרירות הישראלית במקום", "מספר הטלפון של חברת הביטוח", "מקום הקרוב ביותר לקבלת עזרה רפואית"]
  const WeatherUnavailable: string := "מידע מזג אוויר לא זמין"

  /** `${duration} ימים`: the request's day count in the plan's wording. */
  function DurationText(duration: int): (r: string)
    ensures |r| > |DaysWord| && r[|r| - |DaysWord|..] == DaysWord
    ensures ParseInt(r[..|r| - |DaysWord|]) == Some(duration)
  {
    var n := IntToString(duration);
    IntToStringRoundTrip(duration);
    assert (n + DaysWord)[..|n|] == n;
    n + DaysWord
  }

  /** The duration label determines the day count it was written from. */
  lemma DurationTextInjective(a: int, b: int)
    requires DurationText(a) == DurationText(b)
    ensures a == b
  {
    var ra, rb := DurationText(a), DurationText(b);
    assert |IntToString(a)| == |ra| - |DaysWord| == |IntToString(b)|;
    assert IntToString(a) == ra[..|ra| - |DaysWord|] == IntToString(b);
    IntToStringInjective(a, b);
  }

  /** Morning, afternoon and evening by `day % 3` (for day >= 1, where JavaScript's `%` agrees with Dafny's). */
  function TimeOfDay(day: int): (r: string)
    requires day >= 1
    ensures r == Morning <==> day % 3 == 1
    ensures r == Afternoon <==> day % 3 == 2
    ensures r == Evening <==> day % 3 == 0
  {
    if day % 3 == 1 then Morning else if day % 3 == 2 then Afternoon else Evening
  }

  /** `Math.floor(budget / duration * 0.8)`; the loop evaluates it only when duration >= 1. */
  function DailyCost(budget: int, duration: int): (r: int)
    requires duration > 0
    ensures r * (10 * duration) <= 8 * budget < (r + 1) * (10 * duration)
  {
    (8 * budget) / (10 * duration)
  }

  /** `יום ${day} - חקירה ב${destination}` */
  function MockTitle(day: int, destination: string): string {
    TitlePrefix + IntToString(day) + TitleInfix + destination
  }

  /** Two titles of days >= 1 are equal only for the same day and destination. */
  lemma MockTitleInjective(d1: int, x1: string, d2: int, x2: string)
    requires d1 >= 1 && d2 >= 1
    requires MockTitle(d1, x1) == MockTitle(d2, x2)
    ensures d1 == d2 && x1 == x2
  {
    assert TitleInfix[0] == ' ';
    NumberBetweenInjective(TitlePrefix, IntToString(d1), TitleInfix, x1, IntToString(d2), x2);
    IntToStringInjective(d1, d2);
  }

  function MockDay(day: int, destination: string, budget: int, duration: int): DayPlan
    requires day >= 1 && duration > 0
  {
    DayPlan(day, MockTitle(day, destination), MockActivities, DailyCost(budget, duration), TimeOfDay(day))
  }

  /** How many days the fallback itinerary has: `Math.min(duration, 7)`, and none when that is below 1. */
  function ItineraryLength(duration: int): nat {
    if duration <= 0 then 0 else if duration < 7 then duration else 7
  }

  /** The entries for days 1..n, in the order the loop pushes them. */
  function MockDays(n: nat, destination: string, budget: int, duration: int): seq<DayPlan>
    requires n == 0 || duration > 0
  {
    if n == 0 then [] else MockDays(n - 1, destination, budget, duration) + [MockDay(n, destination, budget, duration)]
  }

  function MockItinerary(formData: TravelFormData, duration: int): seq<DayPlan> {
    MockDays(ItineraryLength(duration), formData.destination, formData.budget, duration)
  }

  lemma {:induction false} MockDaysAt(n: nat, destination: string, budget: int, duration: int)
    requires n == 0 || duration > 0
    ensures |MockDays(n, destination, budget, duration)| == n
    ensures forall i :: 0 <= i < n ==> MockDays(n, destination, budget, duration)[i] == MockDay(i + 1, destination, budget, duration)
  {
    if n > 0 {
      MockDaysAt(n - 1, destination, budget, duration);
    }
  }

  /**
   * The fallback itinerary has max(0, min(duration, 7)) entries, numbered
   * 1, 2, ... in order, each with the same four activities and the same cost
   * (which divides by the full duration, not by the capped length), a title
   * naming its day and the destination, and a time of day cycling with day % 3.
   */
  lemma MockItineraryFacts(formData: TravelFormData, duration: int)
    ensures var it := MockItinerary(formData, duration);
      && |it| <= 7
      && (duration <= 0 ==> it == [])
      && (0 <= duration <= 7 ==> |it| == duration)
      && (duration >= 7 ==> |it| == 7)
    ensures var it := MockItinerary(formData, duration);
      forall i :: 0 <= i < |it| ==>
        && duration > 0
        && it[i].day == i + 1
        && it[i].title == MockTitle(i + 1, formData.destination)
        && it[i].activities == MockActivities
        && it[i].estimatedCost == DailyCost(formData.budget, duration)
        && it[i].timeOfDay == TimeOfDay(i + 1)
  {
    MockDaysAt(ItineraryLength(duration), formData.destination, formData.budget, duration);
  }

  function TotalCost(days: seq<DayPlan>): int {
    if days == [] then 0 else TotalCost(days[..|days| - 1]) + days[|days| - 1].estimatedCost
  }

  lemma {:induction false} MockDaysTotalCost(n: nat, destination: string, budget: int, duration: int)
    requires n == 0 || duration > 0
    ensures n > 0 ==> TotalCost(MockDays(n, destination, budget, duration)) == n * DailyCost(budget, duration)
    ensures n == 0 ==> TotalCost(MockDays(n, destination, budget, duration)) == 0
  {
    if n > 0 {
      var days := MockDays(n, destination, budget, duration);
      var c := DailyCost(budget, duration);
      assert days[..|days| - 1] == MockDays(n - 1, destination, budget, duration);
      assert days[|days| - 1].estimatedCost == c;
      MockDaysTotalCost(n - 1, destination, budget, duration);
      assert TotalCost(days) == (n - 1) * c + c;
      assert (n - 1) * c + c == n * c;
    }
  }

  /** For a non-negative budget the fallback days together cost at most 80% of it. */
  lemma MockCostWithinBudget(formData: TravelFormData, duration: int)
    requires formData.budget >= 0
    ensures 10 * TotalCost(MockItinerary(formData, duration)) <= 8 * formData.budget
  {
    var n := ItineraryLength(duration);
    MockDaysTotalCost(n, formData.destination, formData.budget, duration);
    if n > 0 {
      var b := formData.budget;
      var c := DailyCost(b, duration);
      assert c * (10 * duration) <= 8 * b < (c + 1) * (10 * duration);
      NonNegativeQuotient(c, 10 * duration, 8 * b);
      MultiplyBothSides(n, duration, c);
      assert 10 * (n * c) <= c * (10 * duration);
    }
  }

  lemma NonNegativeQuotient(c: int, d: int, x: int)
    requires d > 0 && x >= 0 && x < (c + 1) * d
    ensures c >= 0
  {
    if c < 0 {
      MultiplyBothSides(c + 1, 0, d);
    }
  }

  lemma MultiplyBothSides(n: int, m: int, c: int)
    requires n <= m && c >= 0
    ensures n * c <= m * c
  {
    assert m * c - n * c == (m - n) * c;
  }

  /** The whole fallback plan, as `generateMockPlan` returns it. */
  function MockPlan(formData: TravelFormData, duration: int): (r: GeneratedTravelPlan)
    ensures r.destination == formData.destination && r.budget == formData.budget
    ensures r.duration == DurationText(duration)
    ensures WellShaped(r)
  {
    GeneratedTravelPlan(
      formData.destination,
      DurationText(duration),
      formData.budget,
      ItineraryValue(MockItinerary(formData, duration)),
      StringsValue(MockRecommendations),
      Str(MockWeather),
      BreakdownValue(MockSplit(formData.budget)),
      StringsValue(MockLocalTips),
      StringsValue(MockEmergencyInfo))
  }

  /** `generateMockPlan`: pushes one entry per day onto the itinerary, then assembles the plan. */
  method GenerateMockPlan(formData: TravelFormData, duration: int) returns (plan: GeneratedTravelPlan)
    ensures plan == MockPlan(formData, duration)
  {
    var mockItinerary: seq<DayPlan> := [];
    var day := 1;
    while day <= (if duration < 7 then duration else 7)
      invariant 1 <= day <= ItineraryLength(duration) + 1
      invariant day > 1 ==> duration > 0
      invariant mockItinerary == MockDays(day - 1, formData.destination, formData.budget, duration)
    {
      mockItinerary := mockItinerary + [MockDay(day, formData.destination, formData.budget, duration)];
      day := day + 1;
    }
    plan := GeneratedTravelPlan(
      formData.destination,
      DurationText(duration),
      formData.budget,
      ItineraryValue(mockItinerary),
      StringsValue(MockRecommendations),
      Str(MockWeather),
      BreakdownValue(MockSplit(formData.budget)),
      StringsValue(MockLocalTips),
      StringsValue(MockEmergencyInfo));
  }

  // ---------------------------------------------------------------------
  // Brace extraction: `content.match(/\{[\s\S]*\}/)`

  function FirstIndexOf(s: string, c: char): (r: Option<nat>)
    ensures r.Some? ==> r.value < |s| && s[r.value] == c
    ensures r.Some? ==> forall k :: 0 <= k < r.value ==> s[k] != c
    ensures r.None? ==> forall k :: 0 <= k < |s| ==> s[k] != c
  {
    if s == [] then None
    else if s[0] == c then Some(0)
    else match FirstIndexOf(s[1..], c)
      case None => None
      case Some(i) => Some(i + 1)
  }

  function LastIndexOf(s: string, c: char): (r: Option<nat>)
    ensures r.Some? ==> r.value < |s| && s[r.value] == c
    ensures r.Some? ==> forall k :: r.value < k < |s| ==> s[k] != c
    ensures r.None? ==> forall k :: 0 <= k < |s| ==> s[k] != c
  {
    if s == [] then None
    else if s[|s| - 1] == c then Some(|s| - 1)
    else LastIndexOf(s[..|s| - 1], c)
  }

  /** `s[i]` is the first `{` of `s`, `s[j]` its last `}`, and `i < j`. */
  predicate BraceSpan(s: string, i: int, j: int) {
    && 0 <= i < j < |s|
    && s[i] == '{' && s[j] == '}'
    && (forall k :: 0 <= k < i ==> s[k] != '{')
    && (forall k :: j < k < |s| ==> s[k] != '}')
  }

  /**
   * The greedy match: the text from the first `{` to the last `}`, inclusive.
   * There is one exactly when some `{` comes before some `}`.
   */
  function ExtractJsonObject(s: string): (r: Option<string>)
    ensures r.Some? <==> exists i, j :: 0 <= i < j < |s| && s[i] == '{' && s[j] == '}'
    ensures r.Some? ==> exists i, j :: BraceSpan(s, i, j) && r.value == s[i..j + 1]
  {
    var open := FirstIndexOf(s, '{');
    var close := LastIndexOf(s, '}');
    if open.Some? && close.Some? && open.value < close.value then
      assert BraceSpan(s, open.value, close.value);
      Some(s[open.value..close.value + 1])
    else
      None
  }

  /** A text that starts with `{` and ends with `}` is its own match. */
  lemma ExtractWhole(t: string)
    requires |t| >= 2 && t[0] == '{' && t[|t| - 1] == '}'
    ensures ExtractJsonObject(t) == Some(t)
  {
    var open := FirstIndexOf(t, '{');
    var close := LastIndexOf(t, '}');
    assert open == Some(0);
    assert close == Some(|t| - 1);
    assert t[0..|t|] == t;
  }

  /** Extracting again from a match returns the match unchanged. */
  lemma ExtractIdempotent(s: string)
    requires ExtractJsonObject(s).Some?
    ensures ExtractJsonObject(ExtractJsonObject(s).value) == ExtractJsonObject(s)
  {
    var m := ExtractJsonObject(s).value;
    var i, j :| BraceSpan(s, i, j) && m == s[i..j + 1];
    ExtractWhole(m);
  }

  /** An object wrapped in prose without braces of the wrong kind is found exactly. */
  lemma ExtractEmbedded(prefix: string, obj: string, suffix: string)
    requires forall k :: 0 <= k < |prefix| ==> prefix[k] != '{'
    requires forall k :: 0 <= k < |suffix| ==> suffix[k] != '}'
    requires |obj| >= 2 && obj[0] == '{' && obj[|obj| - 1] == '}'
    ensures ExtractJsonObject(prefix + obj + suffix) == Some(obj)
  {
    var s := prefix + obj + suffix;
    var i, j := |prefix|, |prefix| + |obj| - 1;
    var open := FirstIndexOf(s, '{');
    var close := LastIndexOf(s, '}');
    assert s[i] == '{' && s[j] == '}';
    forall k | 0 <= k < i ensures s[k] != '{' {
      assert s[k] == prefix[k];
    }
    forall k | j < k < |s| ensures s[k] != '}' {
      assert s[k] == suffix[k - j - 1];
    }
    assert open == Some(i);
    assert close == Some(j);
    assert s[i..j + 1] == obj;
  }

  // ---------------------------------------------------------------------
  // Parsing a reply

  /** `JSON.parse`: None when it throws. */
  type JsonParser = string -> Option<JsValue>

  /** The plan built from a parsed reply object: request fields from the request, the rest by `||` defaulting. */
  function PlanFromReply(data: JsValue, formData: TravelFormData, duration: int): (r: GeneratedTravelPlan)
    requires !data.Null?
    ensures r.destination == formData.destination && r.budget == formData.budget
    ensures r.duration == DurationText(duration)
  {
    GeneratedTravelPlan(
      formData.destination,
      DurationText(duration),
      formData.budget,
      Or(Property(data, "itinerary"), Array([])),
      Or(Property(data, "recommendations"), Array([])),
      Or(Property(data, "weatherInfo"), Str(WeatherUnavailable)),
      Or(Property(data, "budgetBreakdown"), BreakdownValue(ReplyDefaultSplit(formData.budget))),
      Or(Property(data, "localTips"), Array([])),
      Or(Property(data, "emergencyInfo"), Array([])))
  }

  /** The reply's field under `key` was missing or falsy. */
  predicate Absent(data: JsValue, key: string)
    requires !data.Null?
  {
    var v := Property(data, key);
    v.None? || !Truthy(v.value)
  }

  /**
   * Per-field defaulting: a missing or falsy list field becomes `[]`, a
   * missing or falsy weather text the placeholder, a missing or falsy
   * breakdown the 40/30/20/8/2 split; every truthy field passes through as it is.
   */
  lemma ReplyFieldDefaults(data: JsValue, formData: TravelFormData, duration: int)
    requires !data.Null?
    ensures var p := PlanFromReply(data, formData, duration);
      && p.itinerary == (if Absent(data, "itinerary") then Array([]) else data.fields["itinerary"])
      && p.recommendations == (if Absent(data, "recommendations") then Array([]) else data.fields["recommendations"])
      && p.weatherInfo == (if Absent(data, "weatherInfo") then Str(WeatherUnavailable) else data.fields["weatherInfo"])
      && p.budgetBreakdown == (if Absent(data, "budgetBreakdown") then BreakdownValue(ReplyDefaultSplit(formData.budget))
                               else data.fields["budgetBreakdown"])
      && p.localTips == (if Absent(data, "localTips") then Array([]) else data.fields["localTips"])
      && p.emergencyInfo == (if Absent(data, "emergencyInfo") then Array([]) else data.fields["emergencyInfo"])
  {
  }

  /** The kinds of value the plan's declared type asks for. */
  datatype Kind = ListKind | TextKind | RecordKind

  predicate HasKind(v: JsValue, kind: Kind) {
    match kind
    case ListKind => v.Array?
    case TextKind => v.Str?
    case RecordKind => v.Object?
  }

  /** The reply's field under `key` is missing, falsy, or of the kind the plan declares. */
  predicate Acceptable(data: JsValue, key: string, kind: Kind)
    requires !data.Null?
  {
    Absent(data, key) || HasKind(data.fields[key], kind)
  }

  /**
   * Defaulting never leaves a field missing, but it does not check types: the
   * plan is well shaped exactly when every truthy reply field already has the
   * declared kind.
   */
  lemma ReplyShape(data: JsValue, formData: TravelFormData, duration: int)
    requires !data.Null?
    ensures WellShaped(PlanFromReply(data, formData, duration)) <==>
      && Acceptable(data, "itinerary", ListKind)
      && Acceptable(data, "recommendations", ListKind)
      && Acceptable(data, "weatherInfo", TextKind)
      && Acceptable(data, "budgetBreakdown", RecordKind)
      && Acceptable(data, "localTips", ListKind)
      && Acceptable(data, "emergencyInfo", ListKind)
  {
    ReplyFieldDefaults(data, formData, duration);
  }

  /** The plan seen as a JavaScript object, as the caller holds it. */
  function PlanValue(p: GeneratedTravelPlan): JsValue {
    Object(map[
      "destination" := Str(p.destination),
      "duration" := Str(p.duration),
      "budget" := NumberValue(p.budget),
      "itinerary" := p.itinerary,
      "recommendations" := p.recommendations,
      "weatherInfo" := p.weatherInfo,
      "budgetBreakdown" := p.budgetBreakdown,
      "localTips" := p.localTips,
      "emergencyInfo" := p.emergencyInfo])
  }

  /** Every default is truthy, so defaulting an already defaulted plan changes nothing. */
  lemma DefaultingIdempotent(data: JsValue, formData: TravelFormData, duration: int)
    requires !data.Null?
    ensures var p := PlanFromReply(data, formData, duration);
      PlanFromReply(PlanValue(p), formData, duration) == p
  {
    var p := PlanFromReply(data, formData, duration);
    var v := PlanValue(p);
    assert Truthy(p.itinerary) && Truthy(p.recommendations) && Truthy(p.weatherInfo);
    assert Truthy(p.budgetBreakdown) && Truthy(p.localTips) && Truthy(p.emergencyInfo);
    assert v.fields["itinerary"] == p.itinerary;
    assert v.fields["recommendations"] == p.recommendations;
    assert v.fields["weatherInfo"] == p.weatherInfo;
    assert v.fields["budgetBreakdown"] == p.budgetBreakdown;
    assert v.fields["localTips"] == p.localTips;
    assert v.fields["emergencyInfo"] == p.emergencyInfo;
  }

  /**
   * `parseTravelPlan`: the greedy brace match, parsed; the fallback plan when
   * there is no match, when parsing throws, or when the parsed value is
   * `null` (reading a property of it throws).
   */
  function ParseTravelPlan(content: string, formData: TravelFormData, duration: int, parse: JsonParser): (r: GeneratedTravelPlan)
    ensures r.destination == formData.destination && r.budget == formData.budget
    ensures r.duration == DurationText(duration)
    ensures ExtractJsonObject(content).None? ==> r == MockPlan(formData, duration)
    ensures ExtractJsonObject(content).Some? && parse(ExtractJsonObject(content).value).None? ==> r == MockPlan(formData, duration)
    ensures ExtractJsonObject(content).Some? && parse(ExtractJsonObject(content).value).Some? ==>
      var data := parse(ExtractJsonObject(content).value).value;
      r == if data.Null? then MockPlan(formData, duration) else PlanFromReply(data, formData, duration)
  {
    match ExtractJsonObject(content)
    case None => MockPlan(formData, duration)
    case Some(text) =>
      match parse(text)
      case None => MockPlan(formData, duration)
      case Some(data) =>
        if data.Null? then MockPlan(formData, duration) else PlanFromReply(data, formData, duration)
  }

  // ---------------------------------------------------------------------
  // The service and its one entry point

  /** The service holds only the key it read once from the environment. */
  datatype OpenAIService = OpenAIService(apiKey: string)

  /** `import.meta.env.VITE_OPENAI_API_KEY || ''` */
  function ServiceFromEnvironment(configured: Option<string>): (s: OpenAIService)
    ensures s.apiKey != "" <==> configured.Some? && configured.value != ""
    ensures s.apiKey != "" ==> s.apiKey == configured.value
  {
    OpenAIService(if configured.Some? then configured.value else "")
  }

  /**
   * What the single remote call came to. `Thrown` covers a rejected `fetch`,
   * a body that is not JSON and a body without `choices`; otherwise the HTTP
   * status and `choices[0]?.message?.content`.
   */
  datatype RemoteOutcome =
    | Thrown
    | Responded(status: int, content: Option<JsValue>)

  /** `response.ok` */
  predicate IsOkStatus(status: int) {
    200 <= status <= 299
  }

  /**
   * The content the service goes on to parse: a non-empty string. A falsy
   * content throws on purpose; a truthy non-string throws when `.match` is
   * called on it.
   */
  predicate UsableContent(remote: RemoteOutcome) {
    && remote.Responded?
    && IsOkStatus(remote.status)
    && remote.content.Some?
    && remote.content.value.Str?
    && remote.content.value.s != ""
  }

  /**
   * `generateTravelPlan`: without a key, or when the call throws, answers
   * with a non-ok status or carries no usable content, the fallback plan;
   * otherwise the parsed reply. It never fails.
   */
  function GenerateTravelPlan(service: OpenAIService, formData: TravelFormData, duration: int,
                              remote: RemoteOutcome, parse: JsonParser): (r: GeneratedTravelPlan)
    ensures r.destination == formData.destination && r.budget == formData.budget
    ensures r.duration == DurationText(duration)
    ensures service.apiKey == "" ==> r == MockPlan(formData, duration)
    ensures remote.Thrown? ==> r == MockPlan(formData, duration)
    ensures remote.Responded? && !IsOkStatus(remote.status) ==> r == MockPlan(formData, duration)
    ensures !UsableContent(remote) ==> r == MockPlan(formData, duration)
    ensures service.apiKey != "" && UsableContent(remote) ==>
      r == ParseTravelPlan(remote.content.value.s, formData, duration, parse)
  {
    if service.apiKey == "" then MockPlan(formData, duration)
    else match remote
      case Thrown => MockPlan(formData, duration)
      case Responded(status, content) =>
        if !IsOkStatus(status) then MockPlan(formData, duration)
        else if content.None? || !Truthy(content.value) || !content.value.Str? then MockPlan(formData, duration)
        else ParseTravelPlan(content.value.s, formData, duration, parse)
  }

  /** Every plan returned is the fallback plan or a defaulted parsed reply, never anything partial. */
  lemma GenerateIsFallbackOrDefaulted(service: OpenAIService, formData: TravelFormData, duration: int,
                                      remote: RemoteOutcome, parse: JsonParser)
    ensures var r := GenerateTravelPlan(service, formData, duration, remote, parse);
      r == MockPlan(formData, duration) || exists data: JsValue :: !data.Null? && r == PlanFromReply(data, formData, duration)
  {
    var r := GenerateTravelPlan(service, formData, duration, remote, parse);
    if service.apiKey != "" && UsableContent(remote) {
      var content := remote.content.value.s;
      var m := ExtractJsonObject(content);
      if m.Some? && parse(m.value).Some? && !parse(m.value).value.Null? {
        var data := parse(m.value).value;
        assert r == PlanFromReply(data, formData, duration);
      }
    }
  }

  /** Without a key the remote outcome plays no part. */
  lemma NoKeyIgnoresRemote(formData: TravelFormData, duration: int, r1: RemoteOutcome, r2: RemoteOutcome, parse: JsonParser)
    ensures GenerateTravelPlan(OpenAIService(""), formData, duration, r1, parse)
         == GenerateTravelPlan(OpenAIService(""), formData, duration, r2, parse)
  {
  }

  // ---------------------------------------------------------------------
  // Worked requests

  function Lisbon(): TravelFormData {
    TravelFormData("Lisbon", "2024-06-01", "2024-06-05", 2, 8000, ["food", "culture"], "balanced")
  }

  /** No key, four days, budget 8000: four entries, each costing 1600. */
  lemma LisbonWithoutKey(parse: JsonParser)
    ensures var p := GenerateTravelPlan(OpenAIService(""), Lisbon(), 4, Thrown, parse);
      && p.duration == "4" + DaysWord
      && p.itinerary == ItineraryValue(MockItinerary(Lisbon(), 4))
      && |MockItinerary(Lisbon(), 4)| == 4
      && forall i :: 0 <= i < 4 ==> MockItinerary(Lisbon(), 4)[i].estimatedCost == 1600
  {
    MockItineraryFacts(Lisbon(), 4);
    assert DailyCost(8000, 4) == 1600;
    assert IntToString(4) == "4";
  }

  /** An HTTP 500 gives the same plan as having no key. */
  lemma LisbonServerError(key: string, parse: JsonParser)
    requires key != ""
    ensures GenerateTravelPlan(OpenAIService(key), Lisbon(), 4, Responded(500, None), parse)
         == GenerateTravelPlan(OpenAIService(""), Lisbon(), 4, Thrown, parse)
  {
  }

  /**
   * A usable reply whose content is an object wrapped in prose (no `{` before
   * it, no `}` after it) is answered from that object alone.
   */
  lemma EmbeddedReplyIsUsed(key: string, prefix: string, obj: string, suffix: string,
                            formData: TravelFormData, duration: int, parse: JsonParser)
    requires key != ""
    requires forall k :: 0 <= k < |prefix| ==> prefix[k] != '{'
    requires forall k :: 0 <= k < |suffix| ==> suffix[k] != '}'
    requires |obj| >= 2 && obj[0] == '{' && obj[|obj| - 1] == '}'
    requires parse(obj).Some? && !parse(obj).value.Null?
    ensures GenerateTravelPlan(OpenAIService(key), formData, duration, Responded(200, Some(Str(prefix + obj + suffix))), parse)
         == PlanFromReply(parse(obj).value, formData, duration)
  {
    ExtractEmbedded(prefix, obj, suffix);
  }

  /**
   * A reply with prose before the object and only some fields: the given
   * recommendations pass through, the weather gets the placeholder and the
   * breakdown the 40/30/20/8/2 split of 8000.
   */
  lemma LisbonPartialReply(key: string, obj: string, parse: JsonParser)
    requires key != ""
    requires |obj| >= 2 && obj[0] == '{' && obj[|obj| - 1] == '}'
    requires parse(obj) == Some(Object(map[
      "itinerary" := Array([]),
      "recommendations" := Array([Str("Bring an umbrella")])]))
    ensures var p := GenerateTravelPlan(OpenAIService(key), Lisbon(), 4, Responded(200, Some(Str("Sure! " + obj))), parse);
      && p.recommendations == Array([Str("Bring an umbrella")])
      && p.itinerary == Array([])
      && p.weatherInfo == Str(WeatherUnavailable)
      && p.budgetBreakdown == BreakdownValue(BudgetBreakdown(3200, 2400, 1600, 640, 160))
  {
    var prefix := "Sure! ";
    assert forall k :: 0 <= k < |prefix| ==> prefix[k] != '{';
    EmbeddedReplyIsUsed(key, prefix, obj, "", Lisbon(), 4, parse);
    assert prefix + obj + "" == "Sure! " + obj;
    PartialReplyFields(parse(obj).value);
  }

  lemma PartialReplyFields(data: JsValue)
    requires data == Object(map[
      "itinerary" := Array([]),
      "recommendations" := Array([Str("Bring an umbrella")])])
    ensures var p := PlanFromReply(data, Lisbon(), 4);
      && p.recommendations == Array([Str("Bring an umbrella")])
      && p.itinerary == Array([])
      && p.weatherInfo == Str(WeatherUnavailable)
      && p.budgetBreakdown == BreakdownValue(BudgetBreakdown(3200, 2400, 1600, 640, 160))
  {
    assert ReplyDefaultSplit(8000) == BudgetBreakdown(3200, 2400, 1600, 640, 160);
    assert Property(data, "weatherInfo") == None;
    assert Property(data, "budgetBreakdown") == None;
  }

  // ---------------------------------------------------------------------
  // The prompt

  const PromptDestinationLabel: string := "\nתכנן לי טיול מפורט עם הפרטים הבאים:\n\n**פרטי הטיול:**\n- יעד: "
  const PromptDatesLabel: string := "\n- תאריכים: "
  const PromptDatesInfix: string := " עד "
  const PromptTravelersLabel: string := "\n- מספר נוסעים: "
  const PromptBudgetLabel: string := "\n- תקציב כולל: "
  const PromptCurrency: string := " ש\"ח"
  const PromptStyleLabel: string := "\n- סגנון טיול: "
  const PromptInterestsLabel: string := "\n- תחומי עניין: "
  const PromptRequests: string := "\n\n**בקשות:**\n1. צור תוכנית יום ביום מפורטת עם פעילויות קונקרטיות\n2. חשב עלויות משוערות לכל יום\n3. תן המלצות מעשיות וטיפים מקומיים\n4. כלול מידע על מזג האויר הצפוי\n5. פרט את חלוקת התקציב\n6. הוסף מידע חירום חשוב\n\nתקח בחשבון את סגנון הטיול ("
  const PromptClosing: string := ") ואת תחומי העניין הנבחרים.\nתוודא שהתוכנית מתאימה למספר הנוסעים ולתקציב.\n\nאנא החזר את התשובה בפורמט JSON עם המבנה הבא:\n{\n  \"itinerary\": [\n    {\n      \"day\": 1,\n      \"title\": \"כותרת היום\",\n      \"activities\": [\"פעילות 1\", \"פעילות 2\"],\n      \"estimatedCost\": 500,\n      \"timeOfDay\": \"בוקר/צהריים/ערב\"\n    }\n  ],\n  \"recommendations\": [\"המלצה 1\", \"המלצה 2\"],\n  \"weatherInfo\": \"מידע מזג אוויר\",\n  \"budgetBreakdown\": {\n    \"accommodation\": 2000,\n    \"food\": 1500,\n    \"activities\": 1000,\n    \"transportation\": 800,\n    \"miscellaneous\": 700\n  },\n  \"localTips\": [\"טיפ 1\", \"טיפ 2\"],\n  \"emergencyInfo\": [\"מידע חירום 1\", \"מידע חירום 2\"]\n}\n"

  /**
   * `createPrompt`: the request's details, the duration as `(n ימים)`, the
   * interests joined with ", ", and the fixed instructions and schema.
   */
  function CreatePrompt(formData: TravelFormData, duration: int): (p: string)
    ensures Contains(p, "(" + DurationText(duration) + ")")
    ensures Contains(p, Join(formData.interests, ", "))
    ensures Contains(p, PromptDestinationLabel + formData.destination)
  {
    var head := PromptDestinationLabel + formData.destination;
    var dates := PromptDatesLabel + formData.startDate + PromptDatesInfix + formData.endDate + " ";
    var durationPart := "(" + DurationText(duration) + ")";
    var details := PromptTravelersLabel + IntToString(formData.travelers)
      + PromptBudgetLabel + IntToString(formData.budget) + PromptCurrency
      + PromptStyleLabel + formData.travelStyle + PromptInterestsLabel;
    var interestsPart := Join(formData.interests, ", ");
    var tail := PromptRequests + formData.travelStyle + PromptClosing;
    ContainsPieces(head, dates, durationPart, details, interestsPart, tail);
    head + dates + durationPart + details + interestsPart + tail
  }
}
