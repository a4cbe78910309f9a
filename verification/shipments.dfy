/**
 * The session's shipment store: records keyed by tracking number, the one
 * hard-coded record the session starts with, and the delivery analytics
 * derived from a record.
 */
module Shipments {
  import opened Wrappers

  /** A named place with its map coordinates. */
  datatype Place = Place(city: string, lat: real, lon: real)

  datatype Waypoint = Waypoint(lat: real, lon: real)

  /** One timestamped event in a shipment's history; temperature in degrees Fahrenheit. */
  datatype StatusUpdate = StatusUpdate(
    timestamp: string,
    location: string,
    status: string,
    temperature: int,
    weather: string)

  /**
   * A shipment's update history in chronological order. The chatbot reads the
   * last entry as the current conditions, so a trackable record always has one.
   */
  type UpdateLog = log: seq<StatusUpdate> | |log| > 0
    witness [StatusUpdate("", "", "", 0, "")]

  datatype PackageDetails = PackageDetails(
    weight: string,
    dimensions: string,
    kind: string,
    handling: string)

  datatype Preferences = Preferences(
    signatureRequired: bool,
    safePlace: string,
    notifications: seq<string>)

  datatype Shipment = Shipment(
    status: string,
    origin: Place,
    destination: Place,
    currentLocation: Place,
    estimatedDelivery: string,
    routePoints: seq<Waypoint>,
    updates: UpdateLog,
    details: PackageDetails,
    carbonFootprint: real,
    preferences: Preferences)
  {
    /** The current conditions: the most recent status update. */
    function Latest(): StatusUpdate
    {
      updates[|updates| - 1]
    }
  }

  /** The session store, keyed by tracking number. */
  type Store = map<string, Shipment>

  /** Looking a number up either yields its record or reports it unknown. */
  function Lookup(store: Store, number: string): (r: Option<Shipment>)
    ensures r.Some? <==> number in store
    ensures r.Some? ==> r.value == store[number]
  {
    if number in store then Some(store[number]) else None
  }

  /**
   * The session's initial store: one shipment from New York to Los Angeles,
   * now in Chicago. The estimated delivery date is computed from the clock
   * when the session starts, so it is a parameter here.
   */
  function InitialStore(estimatedDelivery: string): (r: Store)
    ensures r.Keys == {"TRK123456"}
    ensures var s := r["TRK123456"];
            && s.status == "In Transit"
            && s.origin.city == "New York"
            && s.destination.city == "Los Angeles"
            && s.currentLocation.city == "Chicago"
            && s.estimatedDelivery == estimatedDelivery
            && |s.updates| == 2
            && s.Latest().location == "Chicago"
            && s.Latest().temperature == 68
            && s.preferences.signatureRequired
  {
    map["TRK123456" := Shipment(
      "In Transit",
      Place("New York", 40.7128, -74.0060),
      Place("Los Angeles", 34.0522, -118.2437),
      Place("Chicago", 41.8781, -87.6298),
      estimatedDelivery,
      [ Waypoint(40.7128, -74.0060),
        Waypoint(41.8781, -87.6298),
        Waypoint(39.7392, -104.9903),
        Waypoint(34.0522, -118.2437) ],
      [ StatusUpdate("2024-10-28 10:00", "New York", "Package Picked Up", 72, "Clear"),
        StatusUpdate("2024-10-28 15:30", "Chicago", "In Transit", 68, "Cloudy") ],
      PackageDetails("5.2 kg", "30x20x15 cm", "Priority", "Fragile"),
      245.5,
      Preferences(true, "Front Porch", ["email", "sms"]))]
  }

  /** A sample from `random.random()`: a real in [0, 1). */
  type Unit = x: real | 0.0 <= x < 1.0

  /** The four random samples one analytics computation consumes. */
  datatype Draws = Draws(distance: Unit, transit: Unit, efficiency: Unit, fuel: Unit)

  /** `random.uniform(lo, hi)`: `lo + (hi - lo) * u` for a sample `u` in [0, 1). */
  function Uniform(lo: real, hi: real, u: Unit): (x: real)
    requires lo <= hi
    ensures lo <= x <= hi
    ensures lo < hi ==> x < hi
  {
    lo + Scale(hi - lo, u)
  }

  /** A sample in [0, 1) scales a non-negative width to a part of it, strictly less when the width is positive. */
  function Scale(width: real, u: Unit): (y: real)
    requires 0.0 <= width
    ensures 0.0 <= y <= width
    ensures 0.0 < width ==> y < width
  {
    ScaleBounds(width, u);
    width * u
  }

  lemma ScaleBounds(width: real, u: Unit)
    requires 0.0 <= width
    ensures 0.0 <= width * u
    ensures 0.0 <= width - width * u
    ensures 0.0 < width ==> 0.0 < width - width * u
  {
    assert width - width * u == width * (1.0 - u);
    assert 0.0 <= width * (1.0 - u);
  }

  /** Delivery performance figures; only the stop count depends on the record. */
  datatype Analytics = Analytics(
    distanceCovered: real,
    timeInTransit: real,
    stopsMade: nat,
    efficiencyScore: real,
    fuelUsage: real)

  /**
   * Analytics for a tracking number: none for an unknown number; otherwise the
   * number of status updates as the stop count and placeholder figures drawn
   * from fixed ranges.
   */
  function DeliveryAnalytics(store: Store, number: string, draws: Draws): (r: Option<Analytics>)
    ensures r.None? <==> number !in store
    ensures r.Some? ==> r.value.stopsMade == |store[number].updates|
    ensures r.Some? ==> 800.0 <= r.value.distanceCovered <= 1200.0
    ensures r.Some? ==> 24.0 <= r.value.timeInTransit <= 72.0
    ensures r.Some? ==> 85.0 <= r.value.efficiencyScore <= 98.0
    ensures r.Some? ==> 10.0 <= r.value.fuelUsage <= 30.0
  {
    match Lookup(store, number)
    case None => None
    case Some(shipment) =>
      Some(Analytics(
        Uniform(800.0, 1200.0, draws.distance),
        Uniform(24.0, 72.0, draws.transit),
        |shipment.updates|,
        Uniform(85.0, 98.0, draws.efficiency),
        Uniform(10.0, 30.0, draws.fuel)))
  }

  /** The stop count is the only deterministic figure: it does not depend on the random samples. */
  lemma StopsIgnoreDraws(store: Store, number: string, d1: Draws, d2: Draws)
    ensures DeliveryAnalytics(store, number, d1).None? <==> DeliveryAnalytics(store, number, d2).None?
    ensures DeliveryAnalytics(store, number, d1).Some? ==>
              DeliveryAnalytics(store, number, d1).value.stopsMade
              == DeliveryAnalytics(store, number, d2).value.stopsMade
  {
  }
}
