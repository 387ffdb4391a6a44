/**
 * The Today screen's workout advice: a priority-ordered list of tests on the
 * current weather, the first test that matches deciding the message. The
 * weather reading comes from the network and is a parameter.
 */
module TodayScreen {
  import opened Wrappers
  import opened Strings

  /** The two fields of the weather reading the advice looks at; degrees Celsius. */
  datatype Weather = Weather(temperature: real, condition: string)

  /** The six pieces of advice, in the order they are tested. */
  datatype Advice = StayIndoors | BundleUp | StayCool | Overcast | Sunny | Suitable

  function Message(a: Advice): string {
    match a
    case StayIndoors => "Weather conditions aren't ideal for outdoor workouts. Consider an indoor workout today."
    case BundleUp => "It's very cold outside. If you're going for an outdoor workout, wear warm layers and don't forget to warm up properly."
    case StayCool => "It's very hot outside. If you're planning an outdoor workout, stay hydrated, wear sunscreen, and consider exercising during cooler parts of the day."
    case Overcast => "Good conditions for outdoor exercise. Not too sunny, but remember to stay hydrated."
    case Sunny => "Great day for outdoor activities! Don't forget sunscreen and stay hydrated."
    case Suitable => "Conditions are suitable for outdoor workouts. Enjoy your exercise!"
  }

  predicate Precipitation(lowered: string) {
    Contains(lowered, "rain") || Contains(lowered, "storm") || Contains(lowered, "snow")
  }

  predicate Cloudy(lowered: string) {
    Contains(lowered, "cloud") || Contains(lowered, "overcast")
  }

  predicate Clear(lowered: string) {
    Contains(lowered, "sun") || Contains(lowered, "clear")
  }

  /**
   * The chain of tests of `getWorkoutRecommendation` on a weather reading.
   * Each piece of advice is given exactly when its own test matches and every
   * earlier test fails; so a cloudy reading gets the overcast advice even if it
   * also mentions the sun.
   */
  function Advise(w: Weather): (a: Advice)
    ensures var l, t := Lower(w.condition), w.temperature;
      (a == StayIndoors <==> Precipitation(l)) &&
      (a == BundleUp <==> !Precipitation(l) && t < 5.0) &&
      (a == StayCool <==> !Precipitation(l) && t > 30.0) &&
      (a == Overcast <==> !Precipitation(l) && 5.0 <= t <= 30.0 && Cloudy(l)) &&
      (a == Sunny <==> !Precipitation(l) && 5.0 <= t <= 30.0 && !Cloudy(l) && Clear(l)) &&
      (a == Suitable <==> !Precipitation(l) && 5.0 <= t <= 30.0 && !Cloudy(l) && !Clear(l))
  {
    var lowered := Lower(w.condition);
    if Precipitation(lowered) then StayIndoors
    else if w.temperature < 5.0 then BundleUp
    else if w.temperature > 30.0 then StayCool
    else if Cloudy(lowered) then Overcast
    else if Clear(lowered) then Sunny
    else Suitable
  }

  /** `getWorkoutRecommendation`: no message without a weather reading. */
  function Recommendation(weather: Option<Weather>): (r: Option<string>)
    ensures r.None? <==> weather.None?
  {
    if weather.None? then None else Some(Message(Advise(weather.value)))
  }

  // ---------------------------------------------------------------------------
  // The same tests as a rule list searched for its first match
  // ---------------------------------------------------------------------------

  datatype Rule = PrecipitationRule | ColdRule | HotRule | CloudRule | ClearRule

  predicate Matches(r: Rule, temperature: real, lowered: string) {
    match r
    case PrecipitationRule => Precipitation(lowered)
    case ColdRule => temperature < 5.0
    case HotRule => temperature > 30.0
    case CloudRule => Cloudy(lowered)
    case ClearRule => Clear(lowered)
  }

  function AdviceOf(r: Rule): Advice {
    match r
    case PrecipitationRule => StayIndoors
    case ColdRule => BundleUp
    case HotRule => StayCool
    case CloudRule => Overcast
    case ClearRule => Sunny
  }

  const Rules: seq<Rule> := [PrecipitationRule, ColdRule, HotRule, CloudRule, ClearRule]

  /** The advice of the first matching rule, or the default when none matches. */
  function FirstMatch(rules: seq<Rule>, temperature: real, lowered: string): Advice {
    if rules == [] then Suitable
    else if Matches(rules[0], temperature, lowered) then AdviceOf(rules[0])
    else FirstMatch(rules[1..], temperature, lowered)
  }

  /** The first matching rule decides, whatever the rules after it say. */
  lemma {:induction false} FirstMatchWins(rules: seq<Rule>, temperature: real, lowered: string, i: int)
    requires 0 <= i < |rules| && Matches(rules[i], temperature, lowered)
    requires forall j :: 0 <= j < i ==> !Matches(rules[j], temperature, lowered)
    ensures FirstMatch(rules, temperature, lowered) == AdviceOf(rules[i])
  {
    if i > 0 {
      FirstMatchWins(rules[1..], temperature, lowered, i - 1);
    }
  }

  /** When no rule matches, the default advice is given. */
  lemma {:induction false} NoMatchIsDefault(rules: seq<Rule>, temperature: real, lowered: string)
    requires forall j :: 0 <= j < |rules| ==> !Matches(rules[j], temperature, lowered)
    ensures FirstMatch(rules, temperature, lowered) == Suitable
  {
    if rules != [] {
      NoMatchIsDefault(rules[1..], temperature, lowered);
    }
  }

  /** The chain of tests is the first match over the rules in their priority order. */
  lemma AdviseIsFirstMatch(w: Weather)
    ensures Advise(w) == FirstMatch(Rules, w.temperature, Lower(w.condition))
  {
    var l, t := Lower(w.condition), w.temperature;
    if Precipitation(l) {
      FirstMatchWins(Rules, t, l, 0);
    } else if t < 5.0 {
      FirstMatchWins(Rules, t, l, 1);
    } else if t > 30.0 {
      FirstMatchWins(Rules, t, l, 2);
    } else if Cloudy(l) {
      FirstMatchWins(Rules, t, l, 3);
    } else if Clear(l) {
      FirstMatchWins(Rules, t, l, 4);
    } else {
      NoMatchIsDefault(Rules, t, l);
    }
  }

  // ---------------------------------------------------------------------------
  // Properties of the advice
  // ---------------------------------------------------------------------------

  /** Rain, storm or snow means the indoor advice, whatever the temperature. */
  lemma PrecipitationWins(w: Weather)
    requires Precipitation(Lower(w.condition))
    ensures Recommendation(Some(w)) == Some(Message(StayIndoors))
  {
  }

  /** The condition's letter case does not matter. */
  lemma CaseInsensitive(temperature: real, c1: string, c2: string)
    requires Lower(c1) == Lower(c2)
    ensures Recommendation(Some(Weather(temperature, c1))) == Recommendation(Some(Weather(temperature, c2)))
    ensures Recommendation(Some(Weather(temperature, Lower(c1)))) == Recommendation(Some(Weather(temperature, c1)))
  {
    LowerIdempotent(c1);
  }

  /** A reading of "Heavy Rain" at 20 degrees: the capitalised word still counts as rain. */
  lemma HeavyRainExample()
    ensures Recommendation(Some(Weather(20.0, "Heavy Rain"))) == Some(Message(StayIndoors))
  {
    var l := Lower("Heavy Rain");
    assert l[6..10] == "rain";
    assert OccursAt(l, "rain", 6);
    ContainsAt(l, "rain");
  }
}
