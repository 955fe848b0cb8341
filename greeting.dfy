/** The greeting shown on the home screen for the current hour of the day;
    the clock reading is the parameter. */
module Greeting {

  datatype Salutation = GoodMorning | GoodAfternoon | GoodEvening

  function Text(s: Salutation): string {
    match s
    case GoodMorning => "Good Morning"
    case GoodAfternoon => "Good Afternoon"
    case GoodEvening => "Good Evening"
  }

  /** The `when` over `LocalTime.now().hour`. */
  function GreetingFor(hour: int): (s: Salutation)
    ensures s == GoodMorning <==> 5 <= hour <= 11
    ensures s == GoodAfternoon <==> 12 <= hour <= 17
    ensures s == GoodEvening <==> hour < 5 || hour > 17
  {
    if 5 <= hour <= 11 then GoodMorning
    else if 12 <= hour <= 17 then GoodAfternoon
    else GoodEvening
  }

  /** The text shown over the hours of a day: the morning text for 5..11,
      the afternoon text for 12..17, and the evening text for the night
      hours on both sides of midnight. */
  lemma OneGreetingPerHour(hour: int)
    requires 0 <= hour <= 23
    ensures Text(GreetingFor(hour)) == "Good Morning" <==> 5 <= hour <= 11
    ensures Text(GreetingFor(hour)) == "Good Afternoon" <==> 12 <= hour <= 17
    ensures Text(GreetingFor(hour)) == "Good Evening" <==> 0 <= hour <= 4 || 18 <= hour <= 23
  {
  }
}
