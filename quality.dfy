/** Pure helpers of the monitoring server: the CO2 and pH classifiers and the
    bounded random-number helper that the data producers draw from. */
module Quality {

  /** The CO2 labels, from best to worst. */
  const AirLabels: seq<string> := ["Very good", "Good", "Fair", "Poor", "Very poor"]

  /** The CO2 levels (ppm) at which the quality moves one step down the scale. */
  const AirThresholds: seq<int> := [350, 450, 600, 800]

  /** The pH labels, from worst to best. */
  const WaterLabels: seq<string> := ["Poor", "Good", "Very good"]

  /** Maps a CO2 level to its quality. Each quality holds on exactly one
      half-open band of CO2 levels. */
  function DetermineAirQuality(co2Level: int): (quality: string)
    ensures quality == "Very good" <==> co2Level < 350
    ensures quality == "Good" <==> 350 <= co2Level < 450
    ensures quality == "Fair" <==> 450 <= co2Level < 600
    ensures quality == "Poor" <==> 600 <= co2Level < 800
    ensures quality == "Very poor" <==> 800 <= co2Level
  {
    if co2Level < 350 then "Very good"
    else if co2Level < 450 then "Good"
    else if co2Level < 600 then "Fair"
    else if co2Level < 800 then "Poor"
    else "Very poor"
  }

  /** How many of the thresholds `ts` the level has reached. */
  function CountReached(ts: seq<int>, level: int): (n: nat)
    ensures n <= |ts|
  {
    if ts == [] then 0
    else (if ts[0] <= level then 1 else 0) + CountReached(ts[1..], level)
  }

  /** The position of a CO2 level on the quality scale: the number of
      thresholds it has reached. */
  function AirBand(co2Level: int): (b: nat)
    ensures b < |AirLabels|
  {
    CountReached(AirThresholds, co2Level)
  }

  /** The classifier agrees with the threshold table: its quality is the one
      at the level's position on the scale. */
  lemma DetermineAirQualityByBand(co2Level: int)
    ensures DetermineAirQuality(co2Level) == AirLabels[AirBand(co2Level)]
  {
    var ts := AirThresholds;
    assert ts[1..][1..] == ts[2..] && ts[2..][1..] == ts[3..] && ts[3..][1..] == ts[4..] == [];
    assert CountReached(ts[3..], co2Level) == if 800 <= co2Level then 1 else 0;
    assert CountReached(ts[2..], co2Level) == (if 600 <= co2Level then 1 else 0) + CountReached(ts[3..], co2Level);
    assert CountReached(ts[1..], co2Level) == (if 450 <= co2Level then 1 else 0) + CountReached(ts[2..], co2Level);
    assert CountReached(ts, co2Level) == (if 350 <= co2Level then 1 else 0) + CountReached(ts[1..], co2Level);
  }

  /** Reaching thresholds is monotone in the level. */
  lemma {:induction false} CountReachedMonotone(ts: seq<int>, a: int, b: int)
    requires a <= b
    ensures CountReached(ts, a) <= CountReached(ts, b)
  {
    if ts != [] {
      CountReachedMonotone(ts[1..], a, b);
    }
  }

  /** More CO2 never gives a better quality. */
  lemma AirQualityMonotone(a: int, b: int)
    requires a <= b
    ensures AirBand(a) <= AirBand(b)
    ensures DetermineAirQuality(a) == AirLabels[AirBand(a)]
    ensures DetermineAirQuality(b) == AirLabels[AirBand(b)]
  {
    CountReachedMonotone(AirThresholds, a, b);
    DetermineAirQualityByBand(a);
    DetermineAirQualityByBand(b);
  }

  /** Maps a pH level to its quality. */
  function DetermineWaterQuality(pHLevel: real): (quality: string)
    ensures quality == "Poor" <==> pHLevel < 6.5
    ensures quality == "Good" <==> 6.5 <= pHLevel < 8.0
    ensures quality == "Very good" <==> 8.0 <= pHLevel
  {
    if pHLevel < 6.5 then "Poor"
    else if pHLevel < 8.0 then "Good"
    else "Very good"
  }

  /** The position of a pH quality on the scale from worst to best. */
  function WaterRank(quality: string): (r: nat)
    ensures quality in WaterLabels ==> r < |WaterLabels| && WaterLabels[r] == quality
  {
    if quality == "Poor" then 0 else if quality == "Good" then 1 else 2
  }

  /** A higher pH never gives a worse quality. */
  lemma WaterQualityMonotone(a: real, b: real)
    requires a <= b
    ensures DetermineWaterQuality(a) in WaterLabels
    ensures WaterRank(DetermineWaterQuality(a)) <= WaterRank(DetermineWaterQuality(b))
  {
  }

  /** The three integer pH levels the forecast can draw, and their labels. */
  lemma WaterQualityOfIntegerLevels()
    ensures DetermineWaterQuality(6 as real) == "Poor"
    ensures DetermineWaterQuality(7 as real) == "Good"
    ensures DetermineWaterQuality(8 as real) == "Very good"
  {
  }

  /** A value of `Math.random()`: a real number in [0, 1). */
  predicate IsUnitDraw(u: real)
  {
    0.0 <= u < 1.0
  }

  /** `Math.floor(u * (max - min + 1)) + min`, where `u` is the value that
      `Math.random()` returned. For `min <= max` it lies in [min, max]. */
  function GetRandomNumber(min: int, max: int, u: real): (r: int)
    requires IsUnitDraw(u)
    ensures min <= max ==> min <= r <= max
  {
    (u * (max - min + 1) as real).Floor + min
  }

  /** Every integer of [min, max] is produced by some draw, so the range of
      the helper is exactly [min, max]. */
  lemma GetRandomNumberCovers(min: int, max: int, k: int)
    requires min <= k <= max
    ensures IsUnitDraw((k - min) as real / (max - min + 1) as real)
    ensures GetRandomNumber(min, max, (k - min) as real / (max - min + 1) as real) == k
  {
  }
}
