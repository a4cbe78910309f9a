/** Concrete conversations with the initial session store. */
module Scenarios {
  import opened Text
  import Shipments
  import TrackingNumbers
  import WeatherAlerts
  import Bot
  import Chat

  /** Tracking the sample shipment reports its record's fields and no weather alert at 68 degrees; the analytics count two stops. */
  lemma TrackSampleShipment(eta: string, draws: Shipments.Draws)
    ensures var r := Bot.Reply(Shipments.InitialStore(eta), "Track TRK123456", draws);
            && r.Tracked?
            && r.summary.number == "TRK123456"
            && r.summary.status == "In Transit"
            && r.summary.origin == "New York"
            && r.summary.destination == "Los Angeles"
            && r.summary.currentLocation == "Chicago"
            && r.summary.estimatedDelivery == eta
            && r.summary.weight == "5.2 kg"
            && r.summary.dimensions == "30x20x15 cm"
            && r.summary.kind == "Priority"
            && r.summary.carbonFootprint == 245.5
            && r.summary.signatureRequired == "Yes"
            && r.summary.safePlace == "Front Porch"
            && r.alerts == []
            && r.analytics.stopsMade == 2
            && 800.0 <= r.analytics.distanceCovered <= 1200.0
            && 24.0 <= r.analytics.timeInTransit <= 72.0
            && 85.0 <= r.analytics.efficiencyScore <= 98.0
  {
    var input := "Track TRK123456";
    var store := Shipments.InitialStore(eta);
    var upper := Upper(input);
    assert Contains(Lower(input), "track");
    assert Bot.Hits(Bot.Track, Lower(input));
    assert TrackingNumbers.LeftmostAt(upper, 6);
    assert upper[6..15] == "TRK123456";
    TrackingNumbers.SearchFindsLeftmost(upper, 6);
    Bot.TrackedReport(store, input, draws, "TRK123456");
  }

  /** A number typed in lower case is found upper-cased: "track trk123456" gets the same report as "Track TRK123456". */
  lemma TrackLowerCaseNumber(eta: string, draws: Shipments.Draws)
    ensures var r := Bot.Reply(Shipments.InitialStore(eta), "track trk123456", draws);
            && r.Tracked?
            && r.summary.number == "TRK123456"
            && r == Bot.Reply(Shipments.InitialStore(eta), "Track TRK123456", draws)
  {
    var input := "track trk123456";
    assert Lower(input) == input;
    assert Lower("Track TRK123456") == input;
    assert Contains(input, "track");
    assert Bot.Hits(Bot.Track, input);
    Bot.TrackSearchesUpperInput(input);
    Bot.TrackedReport(Shipments.InitialStore(eta), input, draws, "TRK123456");
  }

  /** A well-formed number the store does not hold is reported as not found. */
  lemma TrackUnknownNumber(eta: string, draws: Shipments.Draws)
    ensures Bot.Reply(Shipments.InitialStore(eta), "status TRK999999", draws) == Bot.NotFound
  {
    var input := "status TRK999999";
    var upper := Upper(input);
    assert Contains(Lower(input), "status");
    assert Bot.Hits(Bot.Track, Lower(input));
    assert TrackingNumbers.LeftmostAt(upper, 7);
    assert upper[7..16] == "TRK999999";
    TrackingNumbers.SearchFindsLeftmost(upper, 7);
    Bot.NotFoundExactly(Shipments.InitialStore(eta), input, draws);
  }

  /** Track intent without a number gets the format prompt. */
  lemma TrackWithoutNumber(store: Shipments.Store, draws: Shipments.Draws)
    ensures Bot.Reply(store, "track it", draws) == Bot.BadFormat
  {
    var input := "track it";
    assert Contains(Lower(input), "track");
    assert Bot.Hits(Bot.Track, Lower(input));
    Bot.BadFormatExactly(store, input, draws);
  }

  /** "Hello", in any case, is greeted. */
  lemma GreetHello(store: Shipments.Store, draws: Shipments.Draws)
    ensures Bot.Reply(store, "Hello", draws) == Bot.GreetingReply
    ensures Bot.Reply(store, "HELLO", draws) == Bot.GreetingReply
  {
    var lowered := Lower("Hello");
    assert lowered == "hello";
    Bot.PriorityFacts(lowered);
    Bot.FirstMatchWins(lowered, 4);
    assert Lower("HELLO") == lowered;
  }

  /** "which" contains "hi", so a question with it and no earlier keyword is greeted. */
  lemma GreetWhich(store: Shipments.Store, draws: Shipments.Draws)
    ensures Bot.Reply(store, "Which one?", draws) == Bot.GreetingReply
  {
    var lowered := "which one?";
    assert Lower("Which one?") == lowered;
    assert !Contains(lowered, "track") && !Contains(lowered, "status");
    assert !Contains(lowered, "carbon") && !Contains(lowered, "environmental");
    assert !Contains(lowered, "weather") && !Contains(lowered, "analytics");
    assert Contains(lowered, "which");
    Bot.PriorityFacts(lowered);
    Bot.GreetingInsideWord(lowered);
  }

  /** "weather analytics", in any case, gets the weather reply: the weather test comes first. */
  lemma WeatherBeatsAnalytics(store: Shipments.Store, input: string, draws: Shipments.Draws)
    requires Lower(input) == "weather analytics"
    ensures Bot.Reply(store, input, draws) == Bot.WeatherReply
  {
    WeatherAnalyticsKeywords();
    Bot.WeatherBeforeAnalytics(Lower(input));
  }

  /** The keyword groups "weather analytics" hits and misses. */
  lemma WeatherAnalyticsKeywords()
    ensures Contains("weather analytics", "weather") && Contains("weather analytics", "analytics")
    ensures !Bot.Hits(Bot.Track, "weather analytics") && !Bot.Hits(Bot.Carbon, "weather analytics")
  {
    HitsWeatherAndAnalytics();
    MissesTrackAndCarbon();
    assert Bot.Keywords(Bot.Track) == ["track", "status"];
    assert Bot.Keywords(Bot.Carbon) == ["carbon", "environmental"];
  }

  lemma HitsWeatherAndAnalytics()
    ensures Contains("weather analytics", "weather") && Contains("weather analytics", "analytics")
  {
    assert ContainsFrom("weather analytics", "analytics", 8);
  }

  lemma MissesTrackAndCarbon()
    ensures !Contains("weather analytics", "track") && !Contains("weather analytics", "status")
    ensures !Contains("weather analytics", "carbon") && !Contains("weather analytics", "environmental")
  {
    var lowered := "weather analytics";
    assert !ContainsFrom(lowered, "track", 8) && !ContainsFrom(lowered, "track", 4);
    assert !ContainsFrom(lowered, "status", 8) && !ContainsFrom(lowered, "status", 4);
    assert !ContainsFrom(lowered, "carbon", 8) && !ContainsFrom(lowered, "carbon", 4);
    assert !ContainsFrom(lowered, "environmental", 4);
  }

  /** The sample thresholds: 90 degrees is hot, 20 is freezing, 68 is neither. */
  lemma ChicagoAlerts()
    ensures WeatherAlerts.WeatherAlert("Chicago", 90) == [WeatherAlerts.HeatAlert("Chicago")]
    ensures WeatherAlerts.WeatherAlert("Chicago", 20) == [WeatherAlerts.FreezeAlert("Chicago")]
    ensures WeatherAlerts.WeatherAlert("Chicago", 68) == []
  {
  }

  /** Sending a message and clearing leaves an empty log over the same store. */
  lemma SendThenClear(eta: string, draws: Shipments.Draws)
    ensures var s := Chat.Send(Chat.Start(eta), "hi", draws);
            && s.history == [Chat.UserTurn("hi"), Chat.BotTurn(Bot.Reply(Shipments.InitialStore(eta), "hi", draws))]
            && Chat.Clear(s) == Chat.Start(eta)
  {
  }
}
