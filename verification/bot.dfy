/**
 * The chatbot's reply decision: the user's text is lowered, classified by the
 * first keyword group it contains, and answered. A track query extracts a
 * tracking number, looks it up and summarises the record together with the
 * weather alerts and analytics shown beside it.
 */
module Bot {
  import opened Wrappers
  import opened Text
  import Shipments
  import TrackingNumbers
  import WeatherAlerts

  /** The branches of the reply decision, one per keyword group, plus the fallback. */
  datatype Intent =
    | Track
    | Carbon
    | Weather
    | Analytics
    | Greeting
    | DeliveryTime
    | Help
    | Unrecognized

  /** The substrings that select each branch. */
  function Keywords(intent: Intent): seq<string>
  {
    match intent
    case Track => ["track", "status"]
    case Carbon => ["carbon", "environmental"]
    case Weather => ["weather"]
    case Analytics => ["analytics"]
    case Greeting => ["hello", "hi", "hey"]
    case DeliveryTime => ["delivery time"]
    case Help => ["help"]
    case Unrecognized => []
  }

  /** The lowered text contains one of the intent's keywords. */
  predicate Hits(intent: Intent, lowered: string)
  {
    exists w :: w in Keywords(intent) && Contains(lowered, w)
  }

  /** The order in which the branches are tried. */
  const Priority: seq<Intent> := [Track, Carbon, Weather, Analytics, Greeting, DeliveryTime, Help]

  /** Index of the first intent in `Priority`, from `k` on, whose keywords the text hits; `|Priority|` if none. */
  function FirstHit(lowered: string, k: nat): (r: nat)
    requires k <= |Priority|
    ensures k <= r <= |Priority|
    ensures forall j :: k <= j < r ==> !Hits(Priority[j], lowered)
    ensures r < |Priority| ==> Hits(Priority[r], lowered)
    decreases |Priority| - k
  {
    if k == |Priority| then k
    else if Hits(Priority[k], lowered) then k
    else FirstHit(lowered, k + 1)
  }

  /** Reference reading of the decision: the highest-priority intent that is hit, else the fallback. */
  function ByPriority(lowered: string): Intent
  {
    var k := FirstHit(lowered, 0);
    if k < |Priority| then Priority[k] else Unrecognized
  }

  /** `get_bot_response`'s chain of substring tests on the lowered text. */
  function ClassifyIntent(lowered: string): (r: Intent)
    ensures r == ByPriority(lowered)
  {
    PriorityFacts(lowered);
    if Contains(lowered, "track") || Contains(lowered, "status") then Track
    else if Contains(lowered, "carbon") || Contains(lowered, "environmental") then Carbon
    else if Contains(lowered, "weather") then Weather
    else if Contains(lowered, "analytics") then Analytics
    else if Contains(lowered, "hello") || Contains(lowered, "hi") || Contains(lowered, "hey") then Greeting
    else if Contains(lowered, "delivery time") then DeliveryTime
    else if Contains(lowered, "help") then Help
    else Unrecognized
  }

  /** Unfolds `Hits` for each position of `Priority`. */
  lemma PriorityFacts(lowered: string)
    ensures Hits(Priority[0], lowered) <==> Contains(lowered, "track") || Contains(lowered, "status")
    ensures Hits(Priority[1], lowered) <==> Contains(lowered, "carbon") || Contains(lowered, "environmental")
    ensures Hits(Priority[2], lowered) <==> Contains(lowered, "weather")
    ensures Hits(Priority[3], lowered) <==> Contains(lowered, "analytics")
    ensures Hits(Priority[4], lowered) <==> Contains(lowered, "hello") || Contains(lowered, "hi") || Contains(lowered, "hey")
    ensures Hits(Priority[5], lowered) <==> Contains(lowered, "delivery time")
    ensures Hits(Priority[6], lowered) <==> Contains(lowered, "help")
  {
  }

  /**
   * First match wins: an intent that is hit, with every higher-priority intent
   * missed, decides the branch whatever later keywords the text also holds.
   */
  lemma FirstMatchWins(lowered: string, k: nat)
    requires k < |Priority|
    requires Hits(Priority[k], lowered)
    requires forall j :: 0 <= j < k ==> !Hits(Priority[j], lowered)
    ensures ClassifyIntent(lowered) == Priority[k]
  {
    var r := FirstHit(lowered, 0);
    assert r == k;
  }

  /** Nothing hit means the fallback, and the fallback means nothing was hit. */
  lemma FallbackExactly(lowered: string)
    ensures ClassifyIntent(lowered) == Unrecognized <==> forall i :: !Hits(i, lowered)
  {
    var r := FirstHit(lowered, 0);
    if r == |Priority| {
      forall i
        ensures !Hits(i, lowered)
      {
        if i != Unrecognized {
          assert i == Priority[IndexOf(i)];
        }
      }
    }
  }

  /** Position of a keyword-bearing intent in `Priority`. */
  function IndexOf(i: Intent): (k: nat)
    requires i != Unrecognized
    ensures k < |Priority| && Priority[k] == i
  {
    match i
    case Track => 0
    case Carbon => 1
    case Weather => 2
    case Analytics => 3
    case Greeting => 4
    case DeliveryTime => 5
    case Help => 6
  }

  /** A text with both "weather" and "analytics" (and no earlier keyword) gets the weather reply. */
  lemma WeatherBeforeAnalytics(lowered: string)
    requires Contains(lowered, "weather") && Contains(lowered, "analytics")
    requires !Hits(Track, lowered) && !Hits(Carbon, lowered)
    ensures ClassifyIntent(lowered) == Weather
  {
    FirstMatchWins(lowered, 2);
  }

  /** The greeting keywords match inside words: any text containing "which" is greeted unless an earlier branch fires. */
  lemma GreetingInsideWord(lowered: string)
    requires Contains(lowered, "which")
    requires !Hits(Track, lowered) && !Hits(Carbon, lowered) && !Hits(Weather, lowered) && !Hits(Analytics, lowered)
    ensures ClassifyIntent(lowered) == Greeting
  {
    assert Contains("which", "hi");
    ContainsTransitive(lowered, "which", "hi");
    FirstMatchWins(lowered, 4);
  }

  /** The record fields a track reply reports. */
  datatype Summary = Summary(
    number: string,
    status: string,
    origin: string,
    destination: string,
    estimatedDelivery: string,
    currentLocation: string,
    weight: string,
    dimensions: string,
    kind: string,
    carbonFootprint: real,
    signatureRequired: string,
    safePlace: string)

  datatype Response =
    | Tracked(summary: Summary, alerts: seq<WeatherAlerts.Alert>, analytics: Shipments.Analytics)
    | NotFound
    | BadFormat
    | CarbonReply
    | WeatherReply
    | AnalyticsReply
    | GreetingReply
    | DeliveryTimeReply
    | HelpReply
    | FallbackReply

  /** Which branch produced a reply. */
  function IntentOf(r: Response): Intent
  {
    match r
    case Tracked(_, _, _) => Track
    case NotFound => Track
    case BadFormat => Track
    case CarbonReply => Carbon
    case WeatherReply => Weather
    case AnalyticsReply => Analytics
    case GreetingReply => Greeting
    case DeliveryTimeReply => DeliveryTime
    case HelpReply => Help
    case FallbackReply => Unrecognized
  }

  /**
   * The summary of a record under its tracking number: the fields the reply
   * shows, taken from the record, with the signature flag as "Yes" or "No".
   */
  function Summarize(number: string, s: Shipments.Shipment): (r: Summary)
    ensures r.number == number && r.status == s.status && r.estimatedDelivery == s.estimatedDelivery
    ensures r.origin == s.origin.city && r.destination == s.destination.city
    ensures r.currentLocation == s.currentLocation.city
    ensures r.weight == s.details.weight && r.dimensions == s.details.dimensions && r.kind == s.details.kind
    ensures r.carbonFootprint == s.carbonFootprint
    ensures r.signatureRequired == "Yes" <==> s.preferences.signatureRequired
    ensures r.signatureRequired == "No" <==> !s.preferences.signatureRequired
    ensures r.safePlace == s.preferences.safePlace
  {
    Summary(
      number,
      s.status,
      s.origin.city,
      s.destination.city,
      s.estimatedDelivery,
      s.currentLocation.city,
      s.details.weight,
      s.details.dimensions,
      s.details.kind,
      s.carbonFootprint,
      if s.preferences.signatureRequired then "Yes" else "No",
      s.preferences.safePlace)
  }

  /** The track branch, given the upper-cased text it searches for a number. */
  function TrackReply(store: Shipments.Store, upper: string, draws: Shipments.Draws): (r: Response)
    ensures r == BadFormat <==> TrackingNumbers.Search(upper).None?
    ensures r == NotFound <==> TrackingNumbers.Search(upper).Some? && TrackingNumbers.Search(upper).value !in store
    ensures r.Tracked? <==> TrackingNumbers.Search(upper).Some? && TrackingNumbers.Search(upper).value in store
    ensures IntentOf(r) == Track
  {
    match TrackingNumbers.Search(upper)
    case None => BadFormat
    case Some(number) =>
      match Shipments.Lookup(store, number)
      case None => NotFound
      case Some(s) =>
        var current := s.Latest();
        Tracked(
          Summarize(number, s),
          WeatherAlerts.WeatherAlert(current.location, current.temperature),
          Shipments.DeliveryAnalytics(store, number, draws).value)
  }

  /** The reply of the branch `intent`; only the track branch looks at the text and the store. */
  function Answer(store: Shipments.Store, intent: Intent, upper: string, draws: Shipments.Draws): (r: Response)
    ensures IntentOf(r) == intent
  {
    match intent
    case Track => TrackReply(store, upper, draws)
    case Carbon => CarbonReply
    case Weather => WeatherReply
    case Analytics => AnalyticsReply
    case Greeting => GreetingReply
    case DeliveryTime => DeliveryTimeReply
    case Help => HelpReply
    case Unrecognized => FallbackReply
  }

  /**
   * `get_bot_response`: the reply to one user message. The random samples feed
   * the analytics shown beside a track reply.
   */
  function Reply(store: Shipments.Store, input: string, draws: Shipments.Draws): (r: Response)
    ensures IntentOf(r) == ByPriority(Lower(input))
  {
    var lowered := Lower(input);
    Answer(store, ClassifyIntent(lowered), Upper(lowered), draws)
  }

  /** Case does not matter: lowering or upper-casing the message first gives the same reply. */
  lemma ReplyIgnoresCase(store: Shipments.Store, input: string, draws: Shipments.Draws)
    ensures Reply(store, Lower(input), draws) == Reply(store, input, draws)
    ensures Reply(store, Upper(input), draws) == Reply(store, input, draws)
  {
    LowerIdempotent(input);
    LowerOfUpper(input);
  }

  /**
   * Lowering the message before upper-casing it loses nothing: the number is
   * searched in the upper-cased message, so "trk123456" is found as "TRK123456".
   */
  lemma TrackSearchesUpperInput(input: string)
    ensures TrackingNumbers.Search(Upper(Lower(input))) == TrackingNumbers.Search(Upper(input))
    ensures TrackingNumbers.Search(Upper(Lower("track trk123456"))) == Some("TRK123456")
  {
    UpperOfLower(input);
    assert Lower("track trk123456") == "track trk123456";
    var upper := Upper(Lower("track trk123456"));
    assert upper == "TRACK TRK123456";
    assert TrackingNumbers.LeftmostAt(upper, 6);
    assert upper[6..15] == "TRK123456";
    TrackingNumbers.SearchFindsLeftmost(upper, 6);
  }

  /** The track branch is taken exactly when "track" or "status" occurs, and it searches the upper-cased message. */
  lemma TrackBranch(store: Shipments.Store, input: string, draws: Shipments.Draws)
    ensures IntentOf(Reply(store, input, draws)) == Track <==> Hits(Track, Lower(input))
    ensures Hits(Track, Lower(input)) ==> Reply(store, input, draws) == TrackReply(store, Upper(input), draws)
  {
    var lowered := Lower(input);
    if Hits(Track, lowered) {
      FirstMatchWins(lowered, 0);
      UpperOfLower(input);
    } else {
      PriorityFacts(lowered);
    }
  }

  /** A track query without a well-formed number gets exactly the format prompt, and only such a query does. */
  lemma BadFormatExactly(store: Shipments.Store, input: string, draws: Shipments.Draws)
    ensures Reply(store, input, draws) == BadFormat
            <==> Hits(Track, Lower(input)) && forall i :: !TrackingNumbers.NumberAt(Upper(input), i)
  {
    TrackBranch(store, input, draws);
  }

  /** A well-formed number missing from the store gets exactly the not-found reply. */
  lemma NotFoundExactly(store: Shipments.Store, input: string, draws: Shipments.Draws)
    ensures Reply(store, input, draws) == NotFound
            <==> && Hits(Track, Lower(input))
                 && TrackingNumbers.Search(Upper(input)).Some?
                 && TrackingNumbers.Search(Upper(input)).value !in store
  {
    TrackBranch(store, input, draws);
  }

  /**
   * A track query naming a stored number is answered with that record's
   * summary, the alerts for its latest update's location and temperature,
   * and a stop count equal to the number of updates.
   */
  lemma TrackedReport(store: Shipments.Store, input: string, draws: Shipments.Draws, number: string)
    requires Hits(Track, Lower(input))
    requires TrackingNumbers.Search(Upper(input)) == Some(number)
    requires number in store
    ensures var r := Reply(store, input, draws);
            var s := store[number];
            var current := s.updates[|s.updates| - 1];
            && r.Tracked?
            && TrackingNumbers.WellFormed(r.summary.number)
            && r.summary.number == number
            && r.summary.status == s.status
            && r.summary.origin == s.origin.city
            && r.summary.destination == s.destination.city
            && r.summary.currentLocation == s.currentLocation.city
            && r.summary.estimatedDelivery == s.estimatedDelivery
            && r.summary.weight == s.details.weight
            && r.summary.dimensions == s.details.dimensions
            && r.summary.kind == s.details.kind
            && r.summary.carbonFootprint == s.carbonFootprint
            && (r.summary.signatureRequired == "Yes" <==> s.preferences.signatureRequired)
            && (r.summary.signatureRequired == "No" <==> !s.preferences.signatureRequired)
            && r.summary.safePlace == s.preferences.safePlace
            && r.alerts == WeatherAlerts.WeatherAlert(current.location, current.temperature)
            && r.analytics == Shipments.DeliveryAnalytics(store, number, draws).value
            && r.analytics.stopsMade == |s.updates|
            && 800.0 <= r.analytics.distanceCovered <= 1200.0
            && 24.0 <= r.analytics.timeInTransit <= 72.0
            && 85.0 <= r.analytics.efficiencyScore <= 98.0
            && 10.0 <= r.analytics.fuelUsage <= 30.0
  {
    TrackBranch(store, input, draws);
    var s := store[number];
    assert Reply(store, input, draws) == Tracked(
      Summarize(number, s),
      WeatherAlerts.WeatherAlert(s.Latest().location, s.Latest().temperature),
      Shipments.DeliveryAnalytics(store, number, draws).value);
  }
}
