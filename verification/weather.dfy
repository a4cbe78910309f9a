/** Weather-based delivery alerts for a location and a temperature in degrees Fahrenheit. */
module WeatherAlerts {

  /** Above this temperature packages may need special handling. */
  const HeatThreshold: int := 85

  /** Below this temperature delivery may be delayed by freezing conditions. */
  const FreezeThreshold: int := 32

  datatype Alert =
    | HeatAlert(location: string)
    | FreezeAlert(location: string)

  /**
   * At most one alert: heat strictly above 85, freeze strictly below 32,
   * nothing from 32 to 85 inclusive. Each alert names the location it is for.
   */
  function WeatherAlert(location: string, temperature: int): (alerts: seq<Alert>)
    ensures |alerts| <= 1
    ensures alerts == [HeatAlert(location)] <==> temperature > 85
    ensures alerts == [FreezeAlert(location)] <==> temperature < 32
    ensures alerts == [] <==> 32 <= temperature <= 85
    ensures forall k :: 0 <= k < |alerts| ==> alerts[k].location == location
  {
    if temperature > HeatThreshold then [HeatAlert(location)]
    else if temperature < FreezeThreshold then [FreezeAlert(location)]
    else []
  }
}
