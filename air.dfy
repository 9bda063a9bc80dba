/** The unary air-quality query: one synthetic reading per request. */
module AirService {
  import opened Quality

  /** The reply of `getAirQuality`: the three generated figures and the CO2 label. */
  datatype AirReply = AirReply(co2Level: int, temperature: int, humidity: int, airQuality: string)

  /** The three `Math.random()` values one request consumes, in call order. */
  datatype AirDraws = AirDraws(co2: real, temperature: real, humidity: real)

  predicate ValidAirDraws(d: AirDraws)
  {
    IsUnitDraw(d.co2) && IsUnitDraw(d.temperature) && IsUnitDraw(d.humidity)
  }

  /** Answers a query for `district`. The district is read but never checked,
      and the call always succeeds: every reply has CO2 in [300, 500], a
      temperature in [10, 30], a humidity in [30, 70], and the label of its
      CO2 level, which is never "Poor" or "Very poor". */
  function GetAirQuality(district: int, d: AirDraws): (reply: AirReply)
    requires ValidAirDraws(d)
    ensures 300 <= reply.co2Level <= 500
    ensures 10 <= reply.temperature <= 30
    ensures 30 <= reply.humidity <= 70
    ensures reply.airQuality == DetermineAirQuality(reply.co2Level)
    ensures reply.airQuality in {"Very good", "Good", "Fair"}
  {
    var co2Level := GetRandomNumber(300, 500, d.co2);
    var temperature := GetRandomNumber(10, 30, d.temperature);
    var humidity := GetRandomNumber(30, 70, d.humidity);
    AirReply(co2Level, temperature, humidity, DetermineAirQuality(co2Level))
  }

  /** The reply does not depend on the district asked for: there is no
      server-side range check and no per-district data. */
  lemma GetAirQualityIgnoresDistrict(d1: int, d2: int, d: AirDraws)
    requires ValidAirDraws(d)
    ensures GetAirQuality(d1, d) == GetAirQuality(d2, d)
  {
  }

  /** Each of the three reachable labels is produced by some draw. */
  lemma GetAirQualityReachesEachLabel(district: int)
    ensures exists d :: ValidAirDraws(d) && GetAirQuality(district, d).airQuality == "Very good"
    ensures exists d :: ValidAirDraws(d) && GetAirQuality(district, d).airQuality == "Good"
    ensures exists d :: ValidAirDraws(d) && GetAirQuality(district, d).airQuality == "Fair"
  {
    GetRandomNumberCovers(300, 500, 300);
    GetRandomNumberCovers(300, 500, 400);
    GetRandomNumberCovers(300, 500, 500);
    var low := AirDraws(0.0 / 201.0, 0.0, 0.0);
    var mid := AirDraws(100.0 / 201.0, 0.0, 0.0);
    var high := AirDraws(200.0 / 201.0, 0.0, 0.0);
    assert GetAirQuality(district, low).co2Level == 300;
    assert GetAirQuality(district, mid).co2Level == 400;
    assert GetAirQuality(district, high).co2Level == 500;
  }
}
