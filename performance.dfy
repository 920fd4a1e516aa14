/**
 * The expected-production estimator and the performance classifier of
 * the collector, and the unit conversion it applies to the weather
 * archive's daily figures. Everything here is pure arithmetic on reals.
 */
module Performance {
  import opened Optional

  /** Cumulative real-world losses against the nameplate rating. */
  const PanelEfficiency: real := 0.80
  /** A day below this fraction of its expected output is underperforming. */
  const PerformanceThreshold: real := 0.50
  const SecondsPerHour: real := 3600.0
  /** 1 MJ/m² expressed in kWh/m², as the collector rounds it. */
  const KwhPerMegajoule: real := 0.2778

  /** A day's weather after conversion: hours of sunshine and kWh/m² of irradiance. */
  datatype Weather = Weather(sunHours: real, solarIrradiance: real)

  /**
   * The archive's `daily` block. Each series may be missing from the answer,
   * and its first entry may be null.
   */
  datatype DailyWeather = DailyWeather(
    sunshineDuration: Option<seq<Option<real>>>,
    shortwaveRadiationSum: Option<seq<Option<real>>>)

  /** Python's `x if x else 0` on a nullable number: null and zero both give zero. */
  function OrZero(x: Option<real>): (r: real)
    ensures x.Some? ==> r == x.value
    ensures x.None? ==> r == 0.0
  {
    if x.Some? && x.value != 0.0 then x.value else 0.0
  }

  /** Sunshine duration in seconds, as hours. */
  function SunHours(seconds: Option<real>): (h: real)
    ensures seconds.None? ==> h == 0.0
    ensures seconds.Some? ==> h * SecondsPerHour == seconds.value
  {
    OrZero(seconds) / SecondsPerHour
  }

  /** Shortwave radiation sum in MJ/m², as kWh/m². */
  function SolarIrradiance(radiationMj: Option<real>): (kwh: real)
    ensures radiationMj.None? ==> kwh == 0.0
    ensures radiationMj.Some? ==> kwh == radiationMj.value * KwhPerMegajoule
    ensures kwh > 0.0 <==> radiationMj.Some? && radiationMj.value > 0.0
  {
    OrZero(radiationMj) * KwhPerMegajoule
  }

  /**
   * The weather for one date, or None when the answer has no `daily` block,
   * lacks a series, or a series is empty (the KeyError and IndexError paths).
   */
  function WeatherFromDaily(daily: Option<DailyWeather>): (w: Option<Weather>)
    ensures w.Some? <==>
      && daily.Some?
      && daily.value.sunshineDuration.Some? && |daily.value.sunshineDuration.value| > 0
      && daily.value.shortwaveRadiationSum.Some? && |daily.value.shortwaveRadiationSum.value| > 0
    ensures w.Some? ==>
      && w.value.sunHours * SecondsPerHour == OrZero(daily.value.sunshineDuration.value[0])
      && w.value.solarIrradiance == OrZero(daily.value.shortwaveRadiationSum.value[0]) * KwhPerMegajoule
  {
    match daily
    case None => None
    case Some(d) =>
      if d.sunshineDuration.None? || |d.sunshineDuration.value| == 0 then None
      else if d.shortwaveRadiationSum.None? || |d.shortwaveRadiationSum.value| == 0 then None
      else Some(Weather(SunHours(d.sunshineDuration.value[0]),
                        SolarIrradiance(d.shortwaveRadiationSum.value[0])))
  }

  /**
   * Expected energy in kWh for a day. Under standard test conditions
   * (1 kWh/m²) a panel delivers its peak power times the efficiency.
   * `sunHours` is accepted and ignored, as in the collector.
   */
  function ExpectedProduction(peakPowerKw: real, solarIrradiance: real, sunHours: real): (kwh: real)
    ensures solarIrradiance == 1.0 ==> kwh == peakPowerKw * PanelEfficiency
    ensures peakPowerKw == 0.0 || solarIrradiance == 0.0 ==> kwh == 0.0
    ensures peakPowerKw > 0.0 && solarIrradiance > 0.0 ==> kwh > 0.0
  {
    peakPowerKw * solarIrradiance * PanelEfficiency
  }

  lemma ExpectedIgnoresSunHours(peakPowerKw: real, solarIrradiance: real, h1: real, h2: real)
    ensures ExpectedProduction(peakPowerKw, solarIrradiance, h1)
         == ExpectedProduction(peakPowerKw, solarIrradiance, h2)
  {
  }

  lemma ExpectedMonotoneInPeakPower(p1: real, p2: real, solarIrradiance: real, sunHours: real)
    requires p1 <= p2 && solarIrradiance >= 0.0
    ensures ExpectedProduction(p1, solarIrradiance, sunHours) <= ExpectedProduction(p2, solarIrradiance, sunHours)
  {
    assert (p2 - p1) * solarIrradiance >= 0.0;
  }

  lemma ExpectedMonotoneInIrradiance(peakPowerKw: real, i1: real, i2: real, sunHours: real)
    requires i1 <= i2 && peakPowerKw >= 0.0
    ensures ExpectedProduction(peakPowerKw, i1, sunHours) <= ExpectedProduction(peakPowerKw, i2, sunHours)
  {
    var d := i2 - i1;
    assert peakPowerKw * d >= 0.0;
    assert peakPowerKw * i2 == peakPowerKw * i1 + peakPowerKw * d;
  }

  /** The performance fields the collector computes for one reading. */
  datatype Assessment = Assessment(
    sunHours: Option<real>,
    solarIrradiance: Option<real>,
    expectedKwh: Option<real>,
    performanceRatio: Option<real>,
    isUnderperforming: bool)

  /**
   * Classifies one day's reading. Nothing is judged without weather data or
   * with a zero peak power; the ratio exists only when the expected energy
   * is positive; underperformance is a ratio strictly below the threshold.
   */
  function Assess(valueKwh: real, peakPowerKw: real, weather: Option<Weather>): (a: Assessment)
    ensures weather.None? || peakPowerKw == 0.0 ==> a == Assessment(None, None, None, None, false)
    ensures weather.Some? && peakPowerKw != 0.0 ==>
      && a.sunHours == Some(weather.value.sunHours)
      && a.solarIrradiance == Some(weather.value.solarIrradiance)
      && a.expectedKwh == Some(ExpectedProduction(peakPowerKw, weather.value.solarIrradiance, weather.value.sunHours))
    ensures a.performanceRatio.Some? <==> a.expectedKwh.Some? && a.expectedKwh.value > 0.0
    ensures a.performanceRatio.Some? ==> a.performanceRatio.value * a.expectedKwh.value == valueKwh
    ensures a.isUnderperforming <==> a.performanceRatio.Some? && a.performanceRatio.value < PerformanceThreshold
  {
    if weather.None? || peakPowerKw == 0.0 then
      Assessment(None, None, None, None, false)
    else
      var w := weather.value;
      var expected := ExpectedProduction(peakPowerKw, w.solarIrradiance, w.sunHours);
      if expected > 0.0 then
        var ratio := valueKwh / expected;
        Assessment(Some(w.sunHours), Some(w.solarIrradiance), Some(expected), Some(ratio), ratio < PerformanceThreshold)
      else
        Assessment(Some(w.sunHours), Some(w.solarIrradiance), Some(expected), None, false)
  }

  /** Underperformance in terms of energies: actual below half of a positive expectation. */
  lemma UnderperformingIffBelowHalfOfExpected(valueKwh: real, peakPowerKw: real, weather: Option<Weather>)
    ensures Assess(valueKwh, peakPowerKw, weather).isUnderperforming <==>
      && weather.Some? && peakPowerKw != 0.0
      && ExpectedProduction(peakPowerKw, weather.value.solarIrradiance, weather.value.sunHours) > 0.0
      && valueKwh < PerformanceThreshold * ExpectedProduction(peakPowerKw, weather.value.solarIrradiance, weather.value.sunHours)
  {
    var a := Assess(valueKwh, peakPowerKw, weather);
    if a.performanceRatio.Some? {
      var e, q := a.expectedKwh.value, a.performanceRatio.value;
      assert q * e == valueKwh && e > 0.0;
      assert q < PerformanceThreshold <==> q * e < PerformanceThreshold * e;
    }
  }

  /** Exactly half of the expected energy is not underperformance. */
  lemma HalfOfExpectedIsNotUnderperforming(peakPowerKw: real, w: Weather)
    requires peakPowerKw != 0.0 && ExpectedProduction(peakPowerKw, w.solarIrradiance, w.sunHours) > 0.0
    ensures !Assess(PerformanceThreshold * ExpectedProduction(peakPowerKw, w.solarIrradiance, w.sunHours), peakPowerKw, Some(w)).isUnderperforming
  {
    UnderperformingIffBelowHalfOfExpected(PerformanceThreshold * ExpectedProduction(peakPowerKw, w.solarIrradiance, w.sunHours), peakPowerKw, Some(w));
  }

  /** 10 kW, 0.4 kWh/m²: 3.2 kWh expected; 1.0 kWh actual is a ratio of 0.3125. */
  lemma TenKilowattScenario(sunHours: real)
    ensures Assess(1.0, 10.0, Some(Weather(sunHours, 0.4)))
         == Assessment(Some(sunHours), Some(0.4), Some(3.2), Some(0.3125), true)
  {
  }
}
