/** The air-quality lookup: the 1..5 index and its label and marker table. */
module AirQuality {
  import opened Upstream

  /** The severity index with its two display forms. */
  datatype AirQuality = AirQuality(aqi: int, levelName: string, marker: string)

  /** The five known indexes, best first. */
  predicate KnownAqi(aqi: int) {
    1 <= aqi <= 5
  }

  /** Index -> label, with "Unknown" for any other value. */
  function AqiLabel(aqi: int): (r: string)
    ensures r == "Unknown" <==> !KnownAqi(aqi)
  {
    match aqi
    case 1 => "Good"
    case 2 => "Fair"
    case 3 => "Moderate"
    case 4 => "Poor"
    case 5 => "Very Poor"
    case _ => "Unknown"
  }

  /** Index -> coloured marker, with a white circle for any other value. */
  function AqiMarker(aqi: int): (r: string)
    ensures r == "⚪" <==> !KnownAqi(aqi)
  {
    match aqi
    case 1 => "🟢"
    case 2 => "🟡"
    case 3 => "🟠"
    case 4 => "🔴"
    case 5 => "🟣"
    case _ => "⚪"
  }

  /** get_air_quality_data: a reading exactly when the reply is a decoded 200
      body, labelled through the table; every failure gives no reading. */
  function AirQualityFrom(reply: Reply<int>): (r: Option<AirQuality>)
    ensures r.Some? <==> reply.Ok?
    ensures r.Some? ==> r.value.aqi == reply.body
    ensures r.Some? ==> r.value.levelName == AqiLabel(r.value.aqi) && r.value.marker == AqiMarker(r.value.aqi)
  {
    match reply
    case Ok(aqi) => Some(AirQuality(aqi, AqiLabel(aqi), AqiMarker(aqi)))
    case _ => None
  }

  /** Index 1 is "Good", 2 "Fair", 3 "Moderate", 4 "Poor", 5 "Very Poor". */
  lemma KnownLabels()
    ensures [AqiLabel(1), AqiLabel(2), AqiLabel(3), AqiLabel(4), AqiLabel(5)]
         == ["Good", "Fair", "Moderate", "Poor", "Very Poor"]
    ensures [AqiMarker(1), AqiMarker(2), AqiMarker(3), AqiMarker(4), AqiMarker(5)]
         == ["🟢", "🟡", "🟠", "🔴", "🟣"]
  {
  }
}
