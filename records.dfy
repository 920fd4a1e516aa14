/**
 * One row of the `energy_data` table: an installation-day-metric
 * observation with its performance analysis and its three alert flags,
 * and the record the collector writes for one metering answer.
 */
module Records {
  import opened Optional
  import opened Performance

  /** The table's unique identity `(pod_code, obis_code, date)`. */
  datatype Key = Key(podCode: string, obisCode: string, date: string)

  datatype Record = Record(
    podName: string,
    obisDescription: string,
    valueKwh: real,
    kwhPrice: real,
    earnings: real,
    unit: string,
    startedAt: Option<string>,
    endedAt: Option<string>,
    calculated: bool,
    peakPowerKw: real,
    sunHours: Option<real>,
    solarIrradiance: Option<real>,
    expectedKwh: Option<real>,
    performanceRatio: Option<real>,
    isUnderperforming: bool,
    alertSent: bool,
    alertAcknowledged: bool)

  /** A selected row: its identity and its columns. */
  datatype Row = Row(key: Key, rec: Record)

  /** Python truthiness of an optional text argument: None and "" both mean "no filter". */
  predicate Given(o: Option<string>)
  {
    o.Some? && o.value != ""
  }

  /** The three alert-lifecycle states of an underperforming row. */
  predicate IsPendingAlert(r: Record)
  {
    r.isUnderperforming && !r.alertSent && !r.alertAcknowledged
  }

  predicate IsSentAlert(r: Record)
  {
    r.isUnderperforming && r.alertSent && !r.alertAcknowledged
  }

  predicate IsAcknowledgedAlert(r: Record)
  {
    r.isUnderperforming && r.alertAcknowledged
  }

  /** The weather the collector used for a row, recovered from the stored columns. */
  function StoredWeather(r: Record): Option<Weather>
  {
    if r.sunHours.Some? && r.solarIrradiance.Some? then Some(Weather(r.sunHours.value, r.solarIrradiance.value))
    else None
  }

  function PerformanceOf(r: Record): Assessment
  {
    Assessment(r.sunHours, r.solarIrradiance, r.expectedKwh, r.performanceRatio, r.isUnderperforming)
  }

  /**
   * What every row the collector writes satisfies: earnings are value times
   * price, and the performance columns are the classification of the
   * stored value, peak power and weather.
   */
  predicate WellFormed(r: Record)
  {
    && r.earnings == r.valueKwh * r.kwhPrice
    && (r.sunHours.Some? <==> r.solarIrradiance.Some?)
    && PerformanceOf(r) == Assess(r.valueKwh, r.peakPowerKw, StoredWeather(r))
  }

  /** The alert flags play no part in a row being well formed. */
  lemma WellFormedIgnoresFlags(r: Record, sent: bool, acknowledged: bool)
    requires WellFormed(r)
    ensures WellFormed(r.(alertSent := sent, alertAcknowledged := acknowledged))
  {
    var r' := r.(alertSent := sent, alertAcknowledged := acknowledged);
    assert StoredWeather(r') == StoredWeather(r) && PerformanceOf(r') == PerformanceOf(r);
  }

  /** Every underperforming row carries a positive expectation and a ratio below the threshold. */
  lemma UnderperformingHasBasis(r: Record)
    requires WellFormed(r) && r.isUnderperforming
    ensures r.peakPowerKw != 0.0 && r.sunHours.Some? && r.solarIrradiance.Some?
    ensures r.expectedKwh.Some? && r.expectedKwh.value > 0.0
    ensures r.performanceRatio.Some? && r.performanceRatio.value < PerformanceThreshold
  {
  }

  /** One entry of the metering API's `aggregatedTimeSeries`. */
  datatype Sample = Sample(value: real, startedAt: Option<string>, endedAt: Option<string>, calculated: Option<bool>)

  /** The metering API's answer: the series key may be missing, `unit` defaults to "kWh". */
  datatype MeteringResponse = MeteringResponse(aggregatedTimeSeries: Option<seq<Sample>>, unit: Option<string>)

  /** No row is written for a missing answer, a missing series or an empty series. */
  predicate HasSample(response: Option<MeteringResponse>)
  {
    response.Some? && response.value.aggregatedTimeSeries.Some? && |response.value.aggregatedTimeSeries.value| > 0
  }

  /**
   * The row `_store_data` writes from the first sample of the series:
   * `alert_sent` forced to 0, `alert_acknowledged` carried from the prior row.
   */
  function NewRecord(podName: string, obisDescription: string, kwhPrice: real, peakPowerKw: real,
                     response: MeteringResponse, weather: Option<Weather>, priorAcknowledged: bool): (r: Record)
    requires response.aggregatedTimeSeries.Some? && |response.aggregatedTimeSeries.value| > 0
    ensures WellFormed(r)
    ensures r.valueKwh == response.aggregatedTimeSeries.value[0].value
    ensures r.earnings == r.valueKwh * kwhPrice
    ensures r.podName == podName && r.obisDescription == obisDescription && r.peakPowerKw == peakPowerKw
    ensures r.unit == (if response.unit.Some? then response.unit.value else "kWh")
    ensures r.kwhPrice == kwhPrice
    ensures r.startedAt == response.aggregatedTimeSeries.value[0].startedAt
    ensures r.endedAt == response.aggregatedTimeSeries.value[0].endedAt
    ensures r.calculated == (response.aggregatedTimeSeries.value[0].calculated == Some(true))
    ensures PerformanceOf(r) == Assess(r.valueKwh, peakPowerKw, weather)
    ensures !r.alertSent && r.alertAcknowledged == priorAcknowledged
  {
    var sample := response.aggregatedTimeSeries.value[0];
    var a := Assess(sample.value, peakPowerKw, weather);
    Record(podName, obisDescription, sample.value, kwhPrice, sample.value * kwhPrice,
           response.unit.GetOr("kWh"), sample.startedAt, sample.endedAt, sample.calculated.GetOr(false),
           peakPowerKw, a.sunHours, a.solarIrradiance, a.expectedKwh, a.performanceRatio, a.isUnderperforming,
           false, priorAcknowledged)
  }
}
